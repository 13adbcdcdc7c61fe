/**
 Ownership of capacity slots along the paths of a trigger, the drain step, the launch they
 share and the run itself.  The flags that decide a deferred release are modelled as the
 code keeps them, a panic can strike at every call, and unwinding executes the deferred
 releases.  Threads interleave freely; each event is one step of one of them.
 */
module Slots {
  /** Who called launch: a trigger has cleared its flag by then, the drain step has not. */
  datatype Caller = FromTrigger | FromDrain

  datatype Pc =
    // trigger
    | TStart | TReserved | TSpooling | TReleasing | TClearing | TAfterwards | TReturn
    // launch
    | LOpen(caller: Caller) | LRegister(caller: Caller) | LRefuse(caller: Caller)
    | LPersist(caller: Caller) | LRelease(caller: Caller)
    // drain step
    | DStart | DReserved | DStarted | DReturn
    // run
    | XBody | XHandler | XDefer | XRelease
    | Done

  /**
   A thread with its release flag: capacityOwned in a trigger, the negation of consumedSlot
   in the drain step.  Only jobs use slots, workers do not.  The counters are history: slots
   taken or received, released, handed to a run, and lost.
   */
  datatype Thread = Thread(
    pc: Pc, job: bool, owned: bool, recorded: bool, took: nat, gave: nat, passed: nat, lost: nat)

  /** The branch a step takes where the code has several. */
  datatype Choice = Leave | Reserve | Defer | Proceed(recorded: bool)

  /** A step's new thread, what it does to the slot count, and whether it starts a run. */
  datatype Effect = Effect(th: Thread, taken: int, spawn: bool)

  function NewTrigger(job: bool): Thread { Thread(TStart, job, false, true, 0, 0, 0, 0) }

  function NewDrain(): Thread { Thread(DStart, true, false, true, 0, 0, 0, 0) }

  function NewRun(job: bool): Thread { Thread(XBody, job, false, true, One(job), 0, 0, 0) }

  function One(b: bool): nat { if b then 1 else 0 }

  function At(th: Thread, pc: Pc): Effect { Effect(th.(pc := pc), 0, false) }

  function Take(th: Thread, pc: Pc): Effect { Effect(th.(pc := pc, owned := true, took := th.took + 1), 1, false) }

  function Give(th: Thread, pc: Pc): Effect { Effect(th.(pc := pc, gave := th.gave + 1), -1, false) }

  /** Where launch returns to. */
  function Back(caller: Caller): Pc { if caller.FromTrigger? then TReturn else DStarted }

  function TriggerStep(th: Thread, c: Choice, free: bool): Effect {
    match th.pc
    case TStart => // without a slot a job is skipped, queued or refused
      if !th.job && c.Reserve? then At(th, TReserved)
      else if c.Reserve? && free then Take(th, TReserved)
      else At(th, Done)
    case TReserved => // the row is stored, deferred, or refused
      (match c
       case Proceed(_) => At(th.(owned := false), LOpen(FromTrigger))
       case Defer => At(th, TSpooling)
       case _ => At(th, TReleasing))
    case TSpooling => At(th.(owned := false, recorded := c == Proceed(true)), LOpen(FromTrigger))
    case TReleasing => if th.owned then Give(th, TClearing) else At(th, TAfterwards)
    case TClearing => At(th.(owned := false), TAfterwards)
    case TAfterwards => At(th, TReturn)
    case _ => // the deferred release
      if th.owned then Give(th.(owned := false), Done) else At(th, Done)
  }

  function LaunchStep(th: Thread, closing: bool): Effect
    requires OfLaunch(th.pc)
  {
    var k := th.pc.caller;
    match th.pc
    case LOpen(_) => At(th, LRegister(k))
    case LRegister(_) =>
      if closing then At(th, LRefuse(k)) else Effect(th.(pc := Back(k), passed := th.passed + One(th.job)), 0, true)
    case LRefuse(_) => At(th, if th.recorded then LPersist(k) else LRelease(k))
    case LPersist(_) => At(th, LRelease(k))
    case _ => if th.job then Give(th, Back(k)) else At(th, Back(k))
  }

  function DrainStep(th: Thread, c: Choice, free: bool): Effect {
    match th.pc
    case DStart => if c.Reserve? && free then Take(th, DReserved) else At(th, Done)
    case DReserved => // shutdown, an error, an empty queue, a dropped item, or a dequeued one
      if c.Proceed? then At(th.(recorded := true), LOpen(FromDrain)) else At(th, DReturn)
    case DStarted => At(th.(owned := false), DReturn)
    case _ => // the deferred release
      if th.owned then Give(th.(owned := false), Done) else At(th, Done)
  }

  function ExecuteStep(th: Thread): Effect {
    match th.pc
    case XBody => At(th, XDefer)
    case XHandler => At(th, XDefer)
    case XDefer => At(th, XRelease)
    case _ => if th.job then Give(th, Done) else At(th, Done)
  }

  predicate OfTrigger(pc: Pc) {
    pc.TStart? || pc.TReserved? || pc.TSpooling? || pc.TReleasing? || pc.TClearing? || pc.TAfterwards? || pc.TReturn?
  }

  predicate OfLaunch(pc: Pc) { pc.LOpen? || pc.LRegister? || pc.LRefuse? || pc.LPersist? || pc.LRelease? }

  predicate OfDrain(pc: Pc) { pc.DStart? || pc.DReserved? || pc.DStarted? || pc.DReturn? }

  predicate OfRun(pc: Pc) { pc.XBody? || pc.XHandler? || pc.XDefer? || pc.XRelease? }

  /** One step of a thread, given whether a slot is free and whether the daemon is closing. */
  function Local(th: Thread, c: Choice, free: bool, closing: bool): Effect {
    if OfTrigger(th.pc) then TriggerStep(th, c, free)
    else if OfLaunch(th.pc) then LaunchStep(th, closing)
    else if OfDrain(th.pc) then DrainStep(th, c, free)
    else if OfRun(th.pc) then ExecuteStep(th)
    else At(th, Done)
  }

  /** The steps that call out and so may panic. */
  predicate MayPanic(pc: Pc) {
    || pc.TReserved? || pc.TSpooling? || pc.TAfterwards?
    || pc.LOpen? || pc.LRefuse? || pc.LPersist?
    || pc.DReserved? || pc.XBody? || pc.XHandler?
  }

  /** A launch made by a trigger, past the point where the trigger's flag covers the slot. */
  predicate Uncovered(th: Thread) {
    th.job && (th.pc.LOpen? || th.pc.LRefuse? || th.pc.LPersist?) && th.pc.caller.FromTrigger?
  }

  /** Unwinding goes to the deferred release, or to the handler inside execute. */
  function Panic(th: Thread): Thread
    requires MayPanic(th.pc)
  {
    if OfTrigger(th.pc) then th.(pc := TReturn)
    else if th.pc.DReserved? then th.(pc := DReturn)
    else if th.pc.XBody? then th.(pc := XHandler)
    else if th.pc.XHandler? then th.(pc := XDefer)
    else if th.pc.caller.FromTrigger? then th.(pc := TReturn, lost := th.lost + One(th.job))
    else th.(pc := DReturn)
  }

  // ---------------------------------------------------------------- one thread

  /** The thread is the one that must release or hand on a slot. */
  predicate Holds(th: Thread) {
    if th.pc.TReturn? || th.pc.DReturn? then th.owned
    else
      && th.job
      && (th.pc.TReserved? || th.pc.TSpooling? || th.pc.TReleasing? || OfLaunch(th.pc) || th.pc.DReserved?
          || OfRun(th.pc))
  }

  /** What the flag says at each step. */
  predicate Flagged(th: Thread) {
    && (th.owned ==> th.job)
    && (OfDrain(th.pc) ==> th.job)
    && (OfLaunch(th.pc) ==> th.owned == th.pc.caller.FromDrain?)
    && (th.pc.TReserved? || th.pc.TSpooling? || th.pc.TReleasing? ==> th.owned == th.job)
    && (th.pc.TClearing? || th.pc.DReserved? || th.pc.DStarted? ==> th.owned)
    && (th.pc.TStart? || th.pc.DStart? || th.pc.TAfterwards? || OfRun(th.pc) || th.pc.Done? ==> !th.owned)
    && (th.pc.TStart? || th.pc.TReserved? ==> th.recorded)
  }

  /** A slot taken is held, released, handed on or lost: exactly one of them. */
  predicate Balanced(th: Thread) {
    && Flagged(th)
    && th.took <= 1
    && th.took == th.gave + th.passed + th.lost + One(Holds(th))
    && (th.pc.TStart? || th.pc.DStart? ==> th.took == 0)
  }

  /** The thread keeps a slot out of circulation. */
  predicate Occupies(th: Thread) { Holds(th) || th.lost > 0 }

  /** A step keeps the balance and accounts for the slots it takes and releases. */
  predicate Accounted(th: Thread, e: Effect, free: bool) {
    && Balanced(e.th)
    && e.th.lost == th.lost
    && e.th.job == th.job
    && One(Occupies(e.th)) + One(e.spawn && th.job) == One(Occupies(th)) + e.taken
    && (e.taken > 0 ==> free)
    && (e.spawn ==> e.taken == 0)
  }

  lemma {:induction false} ReserveBalance(th: Thread, c: Choice, free: bool)
    requires Balanced(th) && (th.pc.TStart? || th.pc.TReserved? || th.pc.TSpooling?)
    ensures Accounted(th, TriggerStep(th, c, free), free)
  {
  }

  lemma {:induction false} ReleaseBalance(th: Thread, c: Choice, free: bool)
    requires Balanced(th) && (th.pc.TReleasing? || th.pc.TClearing? || th.pc.TAfterwards? || th.pc.TReturn?)
    ensures Accounted(th, TriggerStep(th, c, free), free)
  {
  }

  lemma {:induction false} RegisterBalance(th: Thread, free: bool, closing: bool)
    requires Balanced(th) && (th.pc.LOpen? || th.pc.LRegister?)
    ensures Accounted(th, LaunchStep(th, closing), free)
  {
  }

  lemma {:induction false} RefuseBalance(th: Thread, free: bool, closing: bool)
    requires Balanced(th) && (th.pc.LRefuse? || th.pc.LPersist? || th.pc.LRelease?)
    ensures Accounted(th, LaunchStep(th, closing), free)
  {
  }

  lemma {:induction false} DrainBalance(th: Thread, c: Choice, free: bool)
    requires Balanced(th) && OfDrain(th.pc)
    ensures Accounted(th, DrainStep(th, c, free), free)
  {
  }

  lemma {:induction false} ExecuteBalance(th: Thread, free: bool)
    requires Balanced(th) && OfRun(th.pc)
    ensures Accounted(th, ExecuteStep(th), free)
  {
  }

  lemma {:induction false} LocalBalance(th: Thread, c: Choice, free: bool, closing: bool)
    requires Balanced(th)
    ensures Accounted(th, Local(th, c, free, closing), free)
  {
    hide TriggerStep, LaunchStep, DrainStep, ExecuteStep;
    if OfTrigger(th.pc) {
      if th.pc.TStart? || th.pc.TReserved? || th.pc.TSpooling? {
        ReserveBalance(th, c, free);
      } else {
        ReleaseBalance(th, c, free);
      }
    } else if OfLaunch(th.pc) {
      if th.pc.LOpen? || th.pc.LRegister? {
        RegisterBalance(th, free, closing);
      } else {
        RefuseBalance(th, free, closing);
      }
    } else if OfDrain(th.pc) {
      DrainBalance(th, c, free);
    } else if OfRun(th.pc) {
      ExecuteBalance(th, free);
    }
  }

  lemma {:induction false} PanicBalance(th: Thread)
    requires Balanced(th) && MayPanic(th.pc)
    ensures Balanced(Panic(th)) && Occupies(Panic(th)) == Occupies(th) && Panic(th).job == th.job
    ensures Panic(th).lost == th.lost + One(Uncovered(th))
    ensures Uncovered(th) ==> th.lost == 0
  {
  }

  // ---------------------------------------------------------------- all threads

  datatype State = State(cap: nat, taken: int, closing: bool, threads: map<nat, Thread>)

  /** New threads, one step of a thread (a started run gets the given name), a panic, shutdown. */
  datatype Event = Trigger(t: nat, job: bool) | Drain(t: nat) | Go(t: nat, c: Choice, run: nat) | Panics(t: nat) | Close

  function Put(s: State, t: nat, th: Thread): State { s.(threads := s.threads[t := th]) }

  function Advance(s: State, t: nat, c: Choice, run: nat): State
    requires t in s.threads
  {
    var e := Local(s.threads[t], c, s.taken < s.cap, s.closing);
    if !e.spawn then Put(s.(taken := s.taken + e.taken), t, e.th)
    else if run in s.threads then s // the name is not free
    else Put(Put(s, t, e.th), run, NewRun(e.th.job))
  }

  function Step(s: State, e: Event): State {
    match e
    case Trigger(t, job) => if t in s.threads then s else Put(s, t, NewTrigger(job))
    case Drain(t) => if t in s.threads then s else Put(s, t, NewDrain())
    case Go(t, c, run) => if t in s.threads then Advance(s, t, c, run) else s
    case Panics(t) => if t in s.threads && MayPanic(s.threads[t].pc) then Put(s, t, Panic(s.threads[t])) else s
    case Close => s.(closing := true)
  }

  function Run(cap: nat, es: seq<Event>): State {
    if es == [] then State(cap, 0, false, map[]) else Step(Run(cap, es[..|es| - 1]), es[|es| - 1])
  }

  /** The event strikes a trigger's launch where no deferred release covers the slot. */
  predicate Strands(s: State, e: Event) { e.Panics? && e.t in s.threads && Uncovered(s.threads[e.t]) }

  function Stranded(cap: nat, es: seq<Event>): nat {
    if es == [] then 0
    else Stranded(cap, es[..|es| - 1]) + One(Strands(Run(cap, es[..|es| - 1]), es[|es| - 1]))
  }

  function Occupiers(threads: map<nat, Thread>): set<nat> { set t | t in threads && Occupies(threads[t]) }

  function Losers(threads: map<nat, Thread>): set<nat> { set t | t in threads && threads[t].lost > 0 }

  function Holders(threads: map<nat, Thread>): set<nat> { set t | t in threads && Holds(threads[t]) }

  /** The job runs registered as active. */
  function Active(threads: map<nat, Thread>): set<nat> {
    set t | t in threads && threads[t].job && (threads[t].pc.XBody? || threads[t].pc.XHandler? || threads[t].pc.XDefer?)
  }

  predicate AllBalanced(threads: map<nat, Thread>) { forall t | t in threads :: Balanced(threads[t]) }

  predicate Inv(s: State, lost: nat) {
    && AllBalanced(s.threads)
    && s.taken == |Occupiers(s.threads)|
    && s.taken <= s.cap
    && |Losers(s.threads)| == lost
  }

  lemma {:induction false} Recount(m: map<nat, Thread>, t: nat, th: Thread)
    ensures var was := t in m && Occupies(m[t]);
            |Occupiers(m[t := th])| == |Occupiers(m)| - One(was) + One(Occupies(th))
  {
    hide Occupies;
    var o := Occupiers(m);
    assert Occupiers(m[t := th]) == if Occupies(th) then o + {t} else o - {t};
  }

  lemma {:induction false} RecountLost(m: map<nat, Thread>, t: nat, th: Thread)
    ensures var was := t in m && m[t].lost > 0;
            |Losers(m[t := th])| == |Losers(m)| - One(was) + One(th.lost > 0)
  {
    var l := Losers(m);
    assert Losers(m[t := th]) == if th.lost > 0 then l + {t} else l - {t};
  }

  /** Storing a balanced thread moves the counts by that thread's own. */
  lemma {:induction false} PutKeeps(s: State, t: nat, th: Thread)
    requires AllBalanced(s.threads) && Balanced(th)
    ensures AllBalanced(Put(s, t, th).threads)
    ensures var was := t in s.threads && Occupies(s.threads[t]);
            |Occupiers(Put(s, t, th).threads)| == |Occupiers(s.threads)| - One(was) + One(Occupies(th))
    ensures var was := t in s.threads && s.threads[t].lost > 0;
            |Losers(Put(s, t, th).threads)| == |Losers(s.threads)| - One(was) + One(th.lost > 0)
  {
    hide Occupies, Balanced, Occupiers, Losers;
    Recount(s.threads, t, th);
    RecountLost(s.threads, t, th);
  }

  lemma {:induction false} BalancedAt(threads: map<nat, Thread>, t: nat)
    requires AllBalanced(threads) && t in threads
    ensures Balanced(threads[t])
  {
  }

  lemma {:induction false} AdvanceKeeps(s: State, lost: nat, t: nat, c: Choice, run: nat)
    requires Inv(s, lost) && t in s.threads
    ensures Inv(Advance(s, t, c, run), lost)
  {
    hide Local, Balanced, Occupies, Occupiers, Losers, AllBalanced, NewRun;
    var th := s.threads[t];
    var e := Local(th, c, s.taken < s.cap, s.closing);
    BalancedAt(s.threads, t);
    LocalBalance(th, c, s.taken < s.cap, s.closing);
    var u := Put(s, t, e.th);
    PutKeeps(s, t, e.th);
    if e.spawn && run !in s.threads {
      FreshRun(NewRun(e.th.job), e.th.job);
      PutKeeps(u, run, NewRun(e.th.job));
    }
  }

  lemma {:induction false} FreshRun(th: Thread, job: bool)
    requires th == NewRun(job)
    ensures Balanced(th) && Occupies(th) == job && th.lost == 0
  {
    assert th.pc == XBody && th.job == job && !th.owned && th.recorded;
    assert th.took == One(job) && th.gave == th.passed == th.lost == 0;
    hide NewRun;
    RunFlags(th);
    hide Flagged, Holds;
  }

  lemma {:induction false} RunFlags(th: Thread)
    requires th.pc == XBody && !th.owned && th.recorded
    ensures Flagged(th) && Holds(th) == th.job
  {
    assert OfRun(th.pc) && !OfLaunch(th.pc) && !OfDrain(th.pc);
    hide OfRun, OfLaunch, OfDrain;
  }

  lemma {:induction false} FreshTrigger(th: Thread, job: bool)
    requires th == NewTrigger(job) || th == NewDrain()
    ensures Balanced(th) && !Occupies(th) && th.lost == 0
  {
    assert (th.pc.TStart? || (th.pc.DStart? && th.job)) && !th.owned && th.recorded;
    assert th.took == th.gave == th.passed == th.lost == 0;
    hide NewTrigger, NewDrain;
    StartFlags(th);
    hide Flagged, Holds;
  }

  lemma {:induction false} StartFlags(th: Thread)
    requires (th.pc.TStart? || (th.pc.DStart? && th.job)) && !th.owned && th.recorded
    ensures Flagged(th) && !Holds(th)
  {
    assert !OfRun(th.pc) && !OfLaunch(th.pc);
    hide OfRun, OfLaunch;
  }

  lemma {:induction false} StepKeeps(s: State, lost: nat, e: Event)
    requires Inv(s, lost)
    ensures Inv(Step(s, e), lost + One(Strands(s, e)))
  {
    hide Advance, Balanced, Occupies, Panic, Uncovered, AllBalanced, Occupiers, Losers;
    match e
    case Trigger(t, job) => FreshTrigger(NewTrigger(job), job); PutKeeps(s, t, NewTrigger(job));
    case Drain(t) => FreshTrigger(NewDrain(), true); PutKeeps(s, t, NewDrain());
    case Go(t, c, run) => if t in s.threads { AdvanceKeeps(s, lost, t, c, run); }
    case Panics(t) => PanicKeeps(s, lost, t);
    case Close =>
  }

  lemma {:induction false} PanicKeeps(s: State, lost: nat, t: nat)
    requires Inv(s, lost)
    ensures Inv(Step(s, Panics(t)), lost + One(Strands(s, Panics(t))))
  {
    hide Balanced, Occupies, Panic, Occupiers, Losers;
    if t in s.threads && MayPanic(s.threads[t].pc) {
      PanicBalance(s.threads[t]);
      PutKeeps(s, t, Panic(s.threads[t]));
    }
  }

  // ---------------------------------------------------------------- every run

  lemma {:induction false} Reachable(cap: nat, es: seq<Event>)
    ensures Inv(Run(cap, es), Stranded(cap, es)) && Run(cap, es).cap == cap
  {
    hide Inv, Step, Strands;
    if es == [] {
      Initially(cap);
    } else {
      Reachable(cap, es[..|es| - 1]);
      StepKeeps(Run(cap, es[..|es| - 1]), Stranded(cap, es[..|es| - 1]), es[|es| - 1]);
      CapStays(Run(cap, es[..|es| - 1]), es[|es| - 1]);
    }
  }

  lemma {:induction false} Initially(cap: nat)
    ensures Inv(State(cap, 0, false, map[]), 0)
  {
    assert Occupiers(map[]) == {} && Losers(map[]) == {};
  }

  lemma {:induction false} CapStays(s: State, e: Event)
    ensures Step(s, e).cap == s.cap
  {
    hide Local, Panic;
  }

  lemma {:induction false} Apart(threads: map<nat, Thread>)
    requires AllBalanced(threads)
    ensures |Occupiers(threads)| == |Holders(threads)| + |Losers(threads)|
    ensures Active(threads) <= Holders(threads)
  {
    assert Occupiers(threads) == Holders(threads) + Losers(threads);
    assert Holders(threads) !! Losers(threads);
  }

  lemma {:induction false} Fits(a: set<nat>, b: set<nat>)
    requires a <= b
    ensures |a| <= |b|
  {
    assert b == a + (b - a);
  }

  /**
   Every slot taken is held by exactly one thread or was lost, the running jobs and the lost
   slots fit in the capacity together, and the lost ones are exactly those a panic stranded
   inside a trigger's launch.
   */
  lemma {:induction false} SlotsAreConserved(cap: nat, es: seq<Event>)
    ensures var s := Run(cap, es);
            && s.taken == |Holders(s.threads)| + |Losers(s.threads)|
            && |Active(s.threads)| + |Losers(s.threads)| <= cap
            && |Losers(s.threads)| == Stranded(cap, es)
  {
    hide Run, Stranded, Holders, Losers, Active, Occupiers, Balanced;
    Reachable(cap, es);
    var s := Run(cap, es);
    Apart(s.threads);
    Fits(Active(s.threads), Holders(s.threads));
  }

  /** A finished thread settled every slot it had, exactly once. */
  lemma {:induction false} EveryPathSettles(cap: nat, es: seq<Event>, t: nat)
    requires t in Run(cap, es).threads && Run(cap, es).threads[t].pc.Done?
    ensures var th := Run(cap, es).threads[t];
            th.took == th.gave + th.passed + th.lost <= 1
  {
    hide Run, Stranded;
    Reachable(cap, es);
    BalancedAt(Run(cap, es).threads, t);
  }

  /** When every thread has finished, exactly the stranded slots are still taken. */
  lemma {:induction false} SlotsComeBack(cap: nat, es: seq<Event>)
    requires forall t | t in Run(cap, es).threads :: Run(cap, es).threads[t].pc.Done?
    ensures Run(cap, es).taken == Stranded(cap, es)
  {
    hide Run, Stranded;
    SlotsAreConserved(cap, es);
    assert Holders(Run(cap, es).threads) == {};
  }

  // ---------------------------------------------------------------- progress

  /** The event is a step or a panic of thread t. */
  predicate Turns(e: Event, t: nat) { (e.Go? || e.Panics?) && e.t == t }

  /** Thread t takes a step at j, and none from i to then. */
  predicate NextTurn(es: seq<Event>, i: nat, j: nat, t: nat) {
    i <= j < |es| && es[j].Go? && es[j].t == t && forall k :: i <= k < j ==> !Turns(es[k], t)
  }

  lemma {:induction false} OthersTurn(s: State, e: Event, t: nat)
    requires t in s.threads && !Turns(e, t)
    ensures t in Step(s, e).threads && Step(s, e).threads[t] == s.threads[t]
  {
    hide Local, Panic;
  }

  /** The other threads leave it alone. */
  lemma {:induction false} Waits(cap: nat, es: seq<Event>, i: nat, j: nat, t: nat)
    requires i <= j <= |es| && t in Run(cap, es[..i]).threads && forall k :: i <= k < j ==> !Turns(es[k], t)
    ensures t in Run(cap, es[..j]).threads && Run(cap, es[..j]).threads[t] == Run(cap, es[..i]).threads[t]
    decreases j - i
  {
    hide Run, Step, Turns;
    if i < j {
      Waits(cap, es, i, j - 1, t);
      OthersTurn(Run(cap, es[..j - 1]), es[j - 1], t);
      Extend(cap, es, j - 1);
    }
  }

  lemma {:induction false} Extend(cap: nat, es: seq<Event>, j: nat)
    requires j < |es|
    ensures Run(cap, es[..j + 1]) == Step(Run(cap, es[..j]), es[j])
  {
    assert es[..j + 1] == es[..j] + [es[j]];
    RunStep(cap, es[..j], es[j]);
  }

  /** What thread t's next step makes of it. */
  lemma {:induction false} Turn(cap: nat, es: seq<Event>, i: nat, j: nat, t: nat)
    requires NextTurn(es, i, j, t) && t in Run(cap, es[..i]).threads
    ensures var s, u, th := Run(cap, es[..j]), Run(cap, es[..j + 1]), Run(cap, es[..i]).threads[t];
            var e := Local(th, es[j].c, s.taken < s.cap, s.closing);
            && (!e.spawn ==> u.threads == s.threads[t := e.th])
            && (e.spawn && es[j].run !in s.threads ==> u.threads == s.threads[t := e.th][es[j].run := NewRun(e.th.job)])
  {
    hide Run, Local, NewRun;
    Waits(cap, es, i, j, t);
    Extend(cap, es, j);
  }

  /**
   A launch that meets no panic, in any interleaving: its second step starts a run, which
   inherits the slot, exactly when the daemon is not closing.
   */
  lemma {:induction false} LaunchLeadsToRun(cap: nat, es: seq<Event>, i: nat, j: nat, k: nat, t: nat)
    requires i <= |es| && t in Run(cap, es[..i]).threads && Run(cap, es[..i]).threads[t].pc.LOpen?
    requires NextTurn(es, i, j, t) && NextTurn(es, j + 1, k, t) && es[k].run !in Run(cap, es[..k]).threads
    ensures var th, s, u := Run(cap, es[..i]).threads[t], Run(cap, es[..k]), Run(cap, es[..k + 1]);
            && t in u.threads
            && (es[k].run in u.threads <==> !s.closing)
            && (if s.closing then u.threads[t].pc == LRefuse(th.pc.caller)
                else
                  && u.threads[es[k].run] == NewRun(th.job) && u.threads[t].pc == Back(th.pc.caller)
                  && u.threads[t].passed == th.passed + One(th.job))
  {
    hide Run, Turns;
    Turn(cap, es, i, j, t);
    Turn(cap, es, j + 1, k, t);
    hide Step;
    assert t in Run(cap, es[..j + 1]).threads;
    Alive(cap, es, j + 1, k, t);
  }

  lemma {:induction false} Alive(cap: nat, es: seq<Event>, i: nat, j: nat, t: nat)
    requires NextTurn(es, i, j, t) && t in Run(cap, es[..i]).threads
    ensures t in Run(cap, es[..j]).threads
  {
    Waits(cap, es, i, j, t);
  }

  /** Once the daemon closes, no further run is ever started. */
  lemma {:induction false} NoRunAfterClose(cap: nat, es: seq<Event>, i: nat, j: nat, t: nat)
    requires i < j <= |es| && es[i].Close?
    requires t in Run(cap, es[..j]).threads && OfRun(Run(cap, es[..j]).threads[t].pc)
    ensures t in Run(cap, es[..i]).threads && OfRun(Run(cap, es[..i]).threads[t].pc)
    decreases j
  {
    hide Run, Step, OfRun;
    ClosedStays(cap, es, i, j);
    Extend(cap, es, j - 1);
    if i == j - 1 {
      CloseTakes(Run(cap, es[..i]), es[i]);
    } else {
      ClosedStays(cap, es, i, j - 1);
      NoneStarted(Run(cap, es[..j - 1]), es[j - 1], t);
      NoRunAfterClose(cap, es, i, j - 1, t);
    }
  }

  lemma {:induction false} ClosedStays(cap: nat, es: seq<Event>, i: nat, j: nat)
    requires i < j <= |es| && es[i].Close?
    ensures Run(cap, es[..j]).closing
    decreases j
  {
    hide Run, Step;
    Extend(cap, es, j - 1);
    if i == j - 1 {
      CloseTakes(Run(cap, es[..i]), es[i]);
    } else {
      ClosedStays(cap, es, i, j - 1);
      StillClosed(Run(cap, es[..j - 1]), es[j - 1]);
    }
  }

  lemma {:induction false} CloseTakes(s: State, e: Event)
    requires e.Close?
    ensures Step(s, e).closing && Step(s, e).threads == s.threads
  {
  }

  lemma {:induction false} StillClosed(s: State, e: Event)
    requires s.closing
    ensures Step(s, e).closing
  {
    hide Local, Panic;
  }

  lemma {:induction false} NoneStarted(s: State, e: Event, t: nat)
    requires s.closing && t in Step(s, e).threads && OfRun(Step(s, e).threads[t].pc)
    ensures t in s.threads && OfRun(s.threads[t].pc)
  {
    hide TriggerStep, LaunchStep, DrainStep;
    if e.Go? && e.t in s.threads { KindStays(s.threads[e.t], e.c, s.taken < s.cap); }
  }

  lemma {:induction false} KindStays(th: Thread, c: Choice, free: bool)
    ensures !Local(th, c, free, true).spawn && (OfRun(Local(th, c, free, true).th.pc) ==> OfRun(th.pc))
  {
    TriggerKind(th, c, free);
    DrainKind(th, c, free);
    if OfLaunch(th.pc) { LaunchKind(th); }
    hide TriggerStep, LaunchStep, DrainStep;
  }

  lemma {:induction false} TriggerKind(th: Thread, c: Choice, free: bool)
    ensures !TriggerStep(th, c, free).spawn && !OfRun(TriggerStep(th, c, free).th.pc)
  {
  }

  lemma {:induction false} DrainKind(th: Thread, c: Choice, free: bool)
    ensures !DrainStep(th, c, free).spawn && !OfRun(DrainStep(th, c, free).th.pc)
  {
  }

  lemma {:induction false} LaunchKind(th: Thread)
    requires OfLaunch(th.pc)
    ensures !LaunchStep(th, true).spawn && !OfRun(LaunchStep(th, true).th.pc)
  {
  }

  /** The step enters launch, and whether the run's row is then stored or waits to be. */
  predicate Enters(pc: Pc, c: Choice) { pc.TSpooling? || ((pc.TReserved? || pc.DReserved?) && c.Proceed?) }

  predicate Stored(pc: Pc, c: Choice) { pc.TSpooling? ==> c == Proceed(true) }

  /** A launch that the closing daemon refuses ends the run in the database exactly if it has a row. */
  lemma {:induction false} RefusedIsEnded(cap: nat, es: seq<Event>, a: nat, b: nat, c: nat, d: nat, t: nat)
    requires a < |es| && t in Run(cap, es[..a]).threads && NextTurn(es, a, a, t)
    requires Enters(Run(cap, es[..a]).threads[t].pc, es[a].c)
    requires NextTurn(es, a + 1, b, t) && NextTurn(es, b + 1, c, t) && NextTurn(es, c + 1, d, t)
    requires Run(cap, es[..c]).closing
    ensures var was, u := Run(cap, es[..a]).threads[t].pc, Run(cap, es[..d + 1]);
            && t in u.threads
            && (u.threads[t].pc.LPersist? <==> Stored(was, es[a].c))
            && (!u.threads[t].pc.LPersist? ==> u.threads[t].pc.LRelease?)
  {
    hide Run, Turns, Step, Local, Stranded, Inv, Enters, Stored;
    Reachable(cap, es[..a]);
    StillRecorded(Run(cap, es[..a]), Stranded(cap, es[..a]), t);
    var w, x := Run(cap, es[..a]), Run(cap, es[..b]);
    var y, z := Run(cap, es[..c]), Run(cap, es[..d]);
    Turn(cap, es, a, a, t);
    EntersLaunch(w.threads[t], es[a].c, w.taken < w.cap, w.closing);
    Turn(cap, es, a + 1, b, t);
    Opens(Run(cap, es[..a + 1]).threads[t], es[b].c, x.taken < x.cap, x.closing);
    Turn(cap, es, b + 1, c, t);
    Refuses(Run(cap, es[..b + 1]).threads[t], es[c].c, y.taken < y.cap);
    Turn(cap, es, c + 1, d, t);
    Ends(Run(cap, es[..c + 1]).threads[t], es[d].c, z.taken < z.cap, z.closing);
  }

  lemma {:induction false} EntersLaunch(th: Thread, c: Choice, free: bool, closing: bool)
    requires Enters(th.pc, c) && (th.pc.TReserved? ==> th.recorded)
    ensures var e := Local(th, c, free, closing); !e.spawn && e.th.pc.LOpen? && e.th.recorded == Stored(th.pc, c)
  {
  }

  lemma {:induction false} Opens(th: Thread, c: Choice, free: bool, closing: bool)
    requires th.pc.LOpen?
    ensures var e := Local(th, c, free, closing); !e.spawn && e.th.pc.LRegister? && e.th.recorded == th.recorded
  {
  }

  lemma {:induction false} Refuses(th: Thread, c: Choice, free: bool)
    requires th.pc.LRegister?
    ensures var e := Local(th, c, free, true); !e.spawn && e.th.pc.LRefuse? && e.th.recorded == th.recorded
  {
  }

  lemma {:induction false} Ends(th: Thread, c: Choice, free: bool, closing: bool)
    requires th.pc.LRefuse?
    ensures var e := Local(th, c, free, closing);
            !e.spawn && if th.recorded then e.th.pc.LPersist? else e.th.pc.LRelease?
  {
  }

  lemma {:induction false} StillRecorded(s: State, lost: nat, t: nat)
    requires Inv(s, lost) && t in s.threads
    ensures s.threads[t].pc.TReserved? ==> s.threads[t].recorded
  {
  }

  /**
   A trigger or drain step that finds a slot, stores its row and meets no panic starts a run
   with its fourth step, exactly when the daemon is not closing by then.
   */
  lemma {:induction false} StartLeadsToRun(cap: nat, es: seq<Event>, a: nat, b: nat, c: nat, d: nat, t: nat)
    requires a < |es| && t in Run(cap, es[..a]).threads && NextTurn(es, a, a, t) && es[a].c.Reserve?
    requires var th := Run(cap, es[..a]).threads[t];
             (th.pc.TStart? && !th.job) || ((th.pc.TStart? || th.pc.DStart?) && Run(cap, es[..a]).taken < cap)
    requires NextTurn(es, a + 1, b, t) && es[b].c.Proceed? && NextTurn(es, b + 1, c, t) && NextTurn(es, c + 1, d, t)
    requires es[d].run !in Run(cap, es[..d]).threads
    ensures var s, u := Run(cap, es[..d]), Run(cap, es[..d + 1]);
            && (es[d].run in u.threads <==> !s.closing)
            && (!s.closing ==> u.threads[es[d].run] == NewRun(Run(cap, es[..a]).threads[t].job))
  {
    hide Run, Turns, Inv, LaunchStep, ExecuteStep, Step;
    Reachable(cap, es[..a]);
    Turn(cap, es, a, a, t);
    Turn(cap, es, a + 1, b, t);
    LaunchLeadsToRun(cap, es, b + 1, c, d, t);
  }

  // ---------------------------------------------------------------- the stranded slot

  const PANICKED := [
    Trigger(0, true), Go(0, Reserve, 1), Go(0, Proceed(true), 1), Panics(0), Go(0, Leave, 1)
  ]

  lemma {:induction false} RunStep(cap: nat, es: seq<Event>, e: Event)
    ensures Run(cap, es + [e]) == Step(Run(cap, es), e)
    ensures Stranded(cap, es + [e]) == Stranded(cap, es) + One(Strands(Run(cap, es), e))
  {
    assert (es + [e])[..|es|] == es;
  }

  lemma {:induction false} StrandedGrows(cap: nat, es: seq<Event>, fs: seq<Event>)
    ensures Stranded(cap, es) <= Stranded(cap, es + fs)
  {
    if fs == [] {
      assert es + fs == es;
    } else {
      var n := |fs| - 1;
      StrandedGrows(cap, es, fs[..n]);
      assert es + fs == es + fs[..n] + [fs[n]];
      RunStep(cap, es + fs[..n], fs[n]);
    }
  }

  /** The only thread, in a daemon with one slot. */
  function Alone(th: Thread, taken: int): State { State(1, taken, false, map[0 := th]) }

  lemma {:induction false} AloneStep(cap: nat, es: seq<Event>, th: Thread, taken: int, c: Choice, next: Thread)
    requires Run(cap, es) == Alone(th, taken)
    requires Local(th, c, taken < 1, false) == Effect(next, Local(th, c, taken < 1, false).taken, false)
    ensures Run(cap, es + [Go(0, c, 1)]) == Alone(next, taken + Local(th, c, taken < 1, false).taken)
    ensures Stranded(cap, es + [Go(0, c, 1)]) == Stranded(cap, es)
  {
    hide Local, Run, Stranded;
    RunStep(cap, es, Go(0, c, 1));
    assert map[0 := th][0 := next] == map[0 := next];
  }

  /** The thread reserves, stores the run's row and enters launch. */
  lemma {:induction false} IntoLaunch(th: Thread)
    requires th == NewTrigger(true)
    ensures Local(th, Reserve, true, false) == Effect(th.(pc := TReserved, owned := true, took := 1), 1, false)
    ensures Local(th.(pc := TReserved, owned := true, took := 1), Proceed(true), false, false)
         == Effect(th.(pc := LOpen(FromTrigger), took := 1), 0, false)
  {
  }

  /** The panic skips the release, and so does the trigger's deferred one. */
  lemma {:induction false} OutOfLaunch(th: Thread)
    requires th.job && !th.owned && th.lost == 0 && th.pc == LOpen(FromTrigger)
    ensures MayPanic(th.pc) && Uncovered(th) && Panic(th) == th.(pc := TReturn, lost := 1)
    ensures Local(Panic(th), Leave, false, false) == Effect(th.(pc := Done, lost := 1), 0, false)
  {
  }

  /**
   A panic while a trigger's launch opens the run's log: the trigger has finished, nothing
   holds a slot, and the only slot is still taken.
   */
  lemma LaunchPanicStrands()
    ensures var s := Run(1, PANICKED);
            && s.taken == 1
            && Holders(s.threads) == {}
            && (forall t | t in s.threads :: s.threads[t].pc.Done?)
            && Stranded(1, PANICKED) == 1
  {
    hide Run, Stranded, Local, Panic;
    var a := PANICKED;
    var th := NewTrigger(true);
    Started();
    IntoLaunch(th);
    AloneStep(1, a[..1], th, 0, Reserve, th.(pc := TReserved, owned := true, took := 1));
    assert a[..1] + [a[1]] == a[..2];
    var open := th.(pc := LOpen(FromTrigger), took := 1);
    AloneStep(1, a[..2], th.(pc := TReserved, owned := true, took := 1), 1, Proceed(true), open);
    assert a[..2] + [a[2]] == a[..3];
    OutOfLaunch(open);
    RunStep(1, a[..3], a[3]);
    assert a[..3] + [a[3]] == a[..4];
    assert map[0 := open][0 := Panic(open)] == map[0 := Panic(open)];
    AloneStep(1, a[..4], Panic(open), 1, Leave, open.(pc := Done, lost := 1));
    assert a[..4] + [a[4]] == a;
  }

  lemma Started()
    ensures Run(1, PANICKED[..1]) == Alone(NewTrigger(true), 0) && Stranded(1, PANICKED[..1]) == 0
  {
    RunStep(1, [], PANICKED[0]);
    assert [] + [PANICKED[0]] == PANICKED[..1];
  }

  /** From then on no job ever runs. */
  lemma {:induction false} StrandedForGood(fs: seq<Event>)
    ensures Active(Run(1, PANICKED + fs).threads) == {}
  {
    hide Run, Stranded, Active;
    LaunchPanicStrands();
    StrandedGrows(1, PANICKED, fs);
    SlotsAreConserved(1, PANICKED + fs);
  }
}
