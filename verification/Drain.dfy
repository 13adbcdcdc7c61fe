/**
 The in-memory side of the execution queue: the depth mirror, the capacity slots and the
 admission lock, with the trigger, the drain loop and the stop call as separate threads.
 Each event is one step between two lock or database operations.
 */
module Drain {
  /** A transaction's outcome; Unsure committed and still reported an error. */
  datatype Outcome = Done | Failed | Unsure

  datatype Trigger = NoTrigger | Deciding(queueable: bool) | Holding | Enqueuing | Counting

  datatype Loop =
    | Asleep | Checking | Due | Expiring(gone: nat) | Ready
    | Waiting | Choosing | Recounting | Resyncing(count: nat) | Starting(item: nat) | Settling(started: bool)

  datatype Stopper = NoStop | Stopping | Uncounting

  datatype Lock = Free | ByTrigger | ByDrain | ByStop

  datatype State = State(
    cap: nat,
    rows: set<nat>,       // the persisted queue
    depth: int,           // its mirror in memory
    slots: nat,           // taken capacity slots
    active: nat,          // runs that own a slot
    lock: Lock, trigger: Trigger, loop: Loop, stopper: Stopper,
    bypassed: nat,        // rows removed that the mirror still counts
    unacked: nat)         // rows added whose commit was reported as a failure

  datatype Event =
    | TriggerBegin(queueable: bool) | TriggerEnd | TriggerDecide | TriggerLaunch | TriggerRelease
    | Enqueue(id: nat, outcome: Outcome) | EnqueueCount
    | Wake | Check | Expire(ids: set<nat>, outcome: Outcome) | ExpireCount | Rest | TakeSlot
    | Admit | Quit | Choose(id: nat) | ReadCount | StoreCount | Start(outcome: Outcome, launched: bool) | Settle
    | StopBegin | Cancel(id: nat, outcome: Outcome) | CancelCount
    | DeleteRows(ids: set<nat>) | RunEnds | Restart

  // ---------------------------------------------------------------- steps

  /** Rows that disappear without the mirror being told. */
  function Bypass(s: State, ids: set<nat>): State {
    s.(rows := s.rows - ids, bypassed := s.bypassed + |s.rows * ids|)
  }

  function TriggerStep(s: State, e: Event): State {
    match e
    case TriggerBegin(q) => if s.lock.Free? then s.(lock := ByTrigger, trigger := Deciding(q)) else s
    case TriggerEnd => // overlap skip, disabled definition, shutdown, cancelled request
      if s.trigger.Deciding? then s.(lock := Free, trigger := NoTrigger) else s
    case TriggerDecide =>
      if !s.trigger.Deciding? then s
      else if s.trigger.queueable && s.depth > 0 then s.(trigger := Enqueuing)
      else if s.slots < s.cap then s.(slots := s.slots + 1, trigger := Holding)
      else if s.trigger.queueable then s.(trigger := Enqueuing)
      else s.(lock := Free, trigger := NoTrigger)
    case TriggerLaunch => if s.trigger.Holding? then s.(active := s.active + 1, lock := Free, trigger := NoTrigger)
        else s
    case TriggerRelease => // replay, refused row, skip without history, refused launch, panic
      if s.trigger.Holding? && s.slots > 0 then s.(slots := s.slots - 1, lock := Free, trigger := NoTrigger) else s
    case Enqueue(id, o) =>
      if !s.trigger.Enqueuing? || id in s.rows then s
      else if o.Done? then s.(rows := s.rows + {id}, trigger := Counting)
      else if o.Unsure? then s.(rows := s.rows + {id}, unacked := s.unacked + 1, lock := Free, trigger := NoTrigger)
      else s.(lock := Free, trigger := NoTrigger)
    case EnqueueCount => if s.trigger.Counting? then s.(depth := s.depth + 1, lock := Free, trigger := NoTrigger) else s
    case _ => s
  }

  function LeaveLoop(s: State, next: Loop): State
    requires s.slots > 0
  {
    s.(slots := s.slots - 1, lock := Free, loop := next)
  }

  function LoopStep(s: State, e: Event): State {
    match e
    case Wake => if s.loop.Asleep? then s.(loop := Checking) else s
    case Check => if !s.loop.Checking? then s else if s.depth <= 0 then s.(loop := Asleep) else s.(loop := Due)
    case Expire(ids, o) =>
      if !s.loop.Due? then s
      else if o.Done? then s.(rows := s.rows - ids, loop := Expiring(|s.rows * ids|))
      else if o.Unsure? then Bypass(s, ids).(loop := Asleep)
      else s.(loop := Asleep)
    case ExpireCount => if s.loop.Expiring? then s.(depth := s.depth - s.loop.gone, loop := Ready) else s
    case Rest => if s.loop.Ready? then s.(loop := Asleep) else s // rate limit, or a full expiry batch
    case TakeSlot =>
      if !s.loop.Ready? then s
      else if s.depth <= 0 || s.slots >= s.cap then s.(loop := Asleep)
      else s.(slots := s.slots + 1, loop := Waiting)
    case Admit => if s.loop.Waiting? && s.lock.Free? then s.(lock := ByDrain, loop := Choosing) else s
    case Quit =>
      if s.slots == 0 then s
      else if s.loop.Waiting? then s.(slots := s.slots - 1, loop := Asleep)
      else if s.loop.Choosing? || s.loop.Recounting? then LeaveLoop(s, Asleep)
      else s
    case Choose(id) =>
      if !s.loop.Choosing? then s
      else if s.rows == {} then s.(loop := Recounting)
      else if id in s.rows then s.(loop := Starting(id))
      else s
    case ReadCount => if s.loop.Recounting? then s.(loop := Resyncing(|s.rows|)) else s
    case StoreCount =>
      if !s.loop.Resyncing? || s.slots == 0 then s
      else LeaveLoop(s, Checking).(depth := s.loop.count, unacked := 0,
                                   bypassed := if s.loop.count >= |s.rows| then s.loop.count - |s.rows| else 0)
    case Start(o, launched) =>
      if !s.loop.Starting? || s.slots == 0 then s
      else if o.Failed? then LeaveLoop(s, Asleep)
      else if o.Unsure? then LeaveLoop(Bypass(s, {s.loop.item}), Asleep)
      else if s.loop.item in s.rows then s.(rows := s.rows - {s.loop.item}, loop := Settling(launched))
      else s.(bypassed := if s.bypassed > 0 then s.bypassed - 1 else 0, loop := Settling(false)) // ended elsewhere
    case Settle =>
      if !s.loop.Settling? || s.slots == 0 then s
      else if s.loop.started then s.(depth := s.depth - 1, active := s.active + 1, lock := Free, loop := Checking)
      else LeaveLoop(s, Checking).(depth := s.depth - 1)
    case _ => s
  }

  function OtherStep(s: State, e: Event): State {
    match e
    case StopBegin => if s.lock.Free? then s.(lock := ByStop, stopper := Stopping) else s
    case Cancel(id, o) =>
      if !s.stopper.Stopping? then s
      else if o.Done? && id in s.rows then s.(rows := s.rows - {id}, stopper := Uncounting)
      else if o.Unsure? then Bypass(s, {id}).(lock := Free, stopper := NoStop)
      else s.(lock := Free, stopper := NoStop)
    case CancelCount => if s.stopper.Uncounting? then s.(depth := s.depth - 1, lock := Free, stopper := NoStop) else s
    case DeleteRows(ids) => Bypass(s, ids)
    case RunEnds => if s.active > 0 && s.slots > 0 then s.(active := s.active - 1, slots := s.slots - 1) else s
    case Restart => Begin(s.cap, s.rows)
    case _ => s
  }

  function Step(s: State, e: Event): State {
    match e
    case TriggerBegin(_) => TriggerStep(s, e)
    case TriggerEnd => TriggerStep(s, e)
    case TriggerDecide => TriggerStep(s, e)
    case TriggerLaunch => TriggerStep(s, e)
    case TriggerRelease => TriggerStep(s, e)
    case Enqueue(_, _) => TriggerStep(s, e)
    case EnqueueCount => TriggerStep(s, e)
    case StopBegin => OtherStep(s, e)
    case Cancel(_, _) => OtherStep(s, e)
    case CancelCount => OtherStep(s, e)
    case DeleteRows(_) => OtherStep(s, e)
    case RunEnds => OtherStep(s, e)
    case Restart => OtherStep(s, e)
    case _ => LoopStep(s, e)
  }

  /** A daemon that just counted the persisted queue. */
  function Begin(cap: nat, rows: set<nat>): State {
    State(cap, rows, |rows|, 0, 0, Free, NoTrigger, Asleep, NoStop, 0, 0)
  }

  function Run(cap: nat, rows: set<nat>, es: seq<Event>): State {
    if es == [] then Begin(cap, rows) else Step(Run(cap, rows, es[..|es| - 1]), es[|es| - 1])
  }

  // ---------------------------------------------------------------- the invariant

  /** Decrements that are due for rows already removed. */
  function Owed(s: State): nat {
    (match s.loop case Expiring(n) => n case Settling(_) => 1 case _ => 0) + (if s.stopper.Uncounting? then 1 else 0)
  }

  /** The increment that is due for a row already added. */
  function Earned(s: State): nat { if s.trigger.Counting? then 1 else 0 }

  predicate LoopHolds(s: State) {
    s.loop.Waiting? || s.loop.Choosing? || s.loop.Recounting? || s.loop.Resyncing? || s.loop.Starting?
        || s.loop.Settling?
  }

  /** The mirror is off by exactly what it was not told and what is still on its way. */
  predicate Mirrored(s: State) {
    && s.depth == |s.rows| + s.bypassed + Owed(s) - s.unacked - Earned(s)
    && (s.loop.Starting? && s.loop.item !in s.rows ==> s.bypassed > 0)
    && (s.loop.Resyncing? ==> |s.rows| <= s.loop.count)
  }

  predicate Capacity(s: State) {
    && s.slots == s.active + (if s.trigger.Holding? then 1 else 0) + (if LoopHolds(s) then 1 else 0)
    && s.slots <= s.cap
  }

  predicate Locked(s: State) {
    && (s.trigger.NoTrigger? <==> !s.lock.ByTrigger?)
    && ((LoopHolds(s) && !s.loop.Waiting?) <==> s.lock.ByDrain?)
    && (s.stopper.NoStop? <==> !s.lock.ByStop?)
  }

  predicate Inv(s: State) { Mirrored(s) && Capacity(s) && Locked(s) }

  lemma {:induction false} Shrinks(rows: set<nat>, ids: set<nat>)
    ensures |rows - ids| + |rows * ids| == |rows|
  {
    assert rows == (rows - ids) + (rows * ids) && (rows - ids) !! (rows * ids);
  }

  lemma {:induction false} TriggerKeeps(s: State, e: Event)
    requires Inv(s)
    ensures Inv(TriggerStep(s, e))
  {
  }

  lemma {:induction false} BypassKeeps(s: State, ids: set<nat>)
    requires Mirrored(s)
    ensures Mirrored(Bypass(s, ids))
  {
    Shrinks(s.rows, ids);
    if s.loop.Starting? && s.loop.item in s.rows && s.loop.item in ids {
      assert s.loop.item in s.rows * ids;
    }
  }

  lemma {:induction false} ExpireKeeps(s: State, ids: set<nat>, o: Outcome)
    requires Inv(s)
    ensures Inv(LoopStep(s, Expire(ids, o)))
  {
    Shrinks(s.rows, ids);
    BypassKeeps(s, ids);
  }

  lemma {:induction false} StartKeeps(s: State, o: Outcome, launched: bool)
    requires Inv(s)
    ensures Inv(LoopStep(s, Start(o, launched)))
  {
    if s.loop.Starting? {
      OneLess(s.rows, s.loop.item);
      BypassKeeps(s, {s.loop.item});
    }
  }

  lemma {:induction false} OneLess(rows: set<nat>, id: nat)
    ensures |rows - {id}| == |rows| - if id in rows then 1 else 0
    ensures id in rows ==> rows * {id} == {id}
  {
    Shrinks(rows, {id});
    if id in rows {
      assert rows * {id} == {id};
    } else {
      assert rows * {id} == {};
    }
  }

  lemma {:induction false} LoopKeeps(s: State, e: Event)
    requires Inv(s)
    ensures Inv(LoopStep(s, e))
  {
    match e
    case Expire(ids, o) => ExpireKeeps(s, ids, o);
    case Start(o, launched) => StartKeeps(s, o, launched);
    case Wake => case Check => case ExpireCount => case Rest => case TakeSlot => case Admit =>
    case _ => RestKeeps(s, e);
  }

  lemma {:induction false} RestKeeps(s: State, e: Event)
    requires Inv(s) && !e.Expire? && !e.Start? && !e.Wake? && !e.Check? && !e.ExpireCount? && !e.Rest? && !e.TakeSlot?
             && !e.Admit?
    ensures Inv(LoopStep(s, e))
  {
  }

  lemma {:induction false} CancelKeeps(s: State, id: nat, o: Outcome)
    requires Inv(s)
    ensures Inv(OtherStep(s, Cancel(id, o)))
  {
    OneLess(s.rows, id);
    BypassKeeps(s, {id});
  }

  lemma {:induction false} OtherKeeps(s: State, e: Event)
    requires Inv(s)
    ensures Inv(OtherStep(s, e))
  {
    match e
    case DeleteRows(ids) => BypassKeeps(s, ids);
    case Cancel(id, o) => CancelKeeps(s, id, o);
    case _ =>
  }

  lemma {:induction false} StepKeeps(s: State, e: Event)
    requires Inv(s)
    ensures Inv(Step(s, e))
  {
    TriggerKeeps(s, e);
    LoopKeeps(s, e);
    OtherKeeps(s, e);
    hide Inv, TriggerStep, LoopStep, OtherStep;
  }

  lemma {:induction false} Reachable(cap: nat, rows: set<nat>, es: seq<Event>)
    ensures Inv(Run(cap, rows, es)) && Run(cap, rows, es).cap == cap
  {
    if es != [] {
      Reachable(cap, rows, es[..|es| - 1]);
      StepKeeps(Run(cap, rows, es[..|es| - 1]), es[|es| - 1]);
      CapFixed(Run(cap, rows, es[..|es| - 1]), es[|es| - 1]);
      hide Inv, Step;
    }
  }

  lemma {:induction false} CapFixed(s: State, e: Event)
    ensures Step(s, e).cap == s.cap
  {
  }

  // ---------------------------------------------------------------- what follows for every run

  /** The mirror under-counts exactly when uncounted additions outnumber uncounted removals. */
  lemma {:induction false} UndercountExactly(cap: nat, rows: set<nat>, es: seq<Event>)
    ensures var s := Run(cap, rows, es);
            s.depth < |s.rows| <==> s.unacked + Earned(s) > s.bypassed + Owed(s)
  {
    Reachable(cap, rows, es);
    hide Run;
  }

  predicate Silent(es: seq<Event>) {
    forall i :: 0 <= i < |es| ==> !(es[i].Enqueue? && es[i].outcome.Unsure?)
  }

  /** Only an enqueue that committed but reported failure goes uncounted. */
  lemma {:induction false} AllCounted(cap: nat, rows: set<nat>, es: seq<Event>)
    requires Silent(es)
    ensures Run(cap, rows, es).unacked == 0
  {
    if es != [] {
      var n := |es| - 1;
      AllCounted(cap, rows, es[..n]);
      UnackedStep(Run(cap, rows, es[..n]), es[n]);
      hide Step;
    }
  }

  lemma {:induction false} UnackedStep(s: State, e: Event)
    requires s.unacked == 0 && !(e.Enqueue? && e.outcome.Unsure?)
    ensures Step(s, e).unacked == 0
  {
  }

  /** Every row is hidden from the mirror by an addition it was never told of. */
  predicate RowsHidden(s: State) { |s.rows| + s.bypassed + Owed(s) <= s.unacked }

  /** With rows queued and a slot free, a queueable trigger overtakes them exactly when all of them are hidden. */
  lemma {:induction false} OvertakesExactly(cap: nat, rows: set<nat>, es: seq<Event>)
    requires var s := Run(cap, rows, es); s.trigger == Deciding(true) && s.rows != {} && s.slots < cap
    ensures Step(Run(cap, rows, es), TriggerDecide).trigger.Holding? <==> RowsHidden(Run(cap, rows, es))
    ensures Step(Run(cap, rows, es), TriggerDecide).trigger.Enqueuing? <==> !RowsHidden(Run(cap, rows, es))
  {
    Reachable(cap, rows, es);
    hide Run;
  }

  /**
   With rows queued, the drain goes idle as empty exactly when they are hidden or one is about
   to be counted: at its first look at the mirror, and at the second one after expiry, where a
   free slot rules out the other reason to sleep.
   */
  lemma {:induction false} IdlesExactly(cap: nat, rows: set<nat>, es: seq<Event>)
    requires Run(cap, rows, es).rows != {}
    ensures var s := Run(cap, rows, es);
            var hidden := |s.rows| + s.bypassed + Owed(s) <= s.unacked + Earned(s);
            && (s.loop.Checking? ==> (Step(s, Check).loop.Asleep? <==> hidden))
            && (s.loop.Ready? && s.slots < cap ==> (Step(s, TakeSlot).loop.Asleep? <==> hidden))
  {
    Reachable(cap, rows, es);
    hide Run;
  }

  lemma {:induction false} SomeRows(rows: set<nat>)
    ensures rows != {} <==> |rows| > 0
  {
  }

  /** So if every enqueue was acknowledged, a trigger that gets a slot found the queue empty. */
  lemma {:induction false} NobodyIsOvertaken(cap: nat, rows: set<nat>, es: seq<Event>)
    requires var s := Run(cap, rows, es);
             s.trigger == Deciding(true) && Step(s, TriggerDecide).trigger.Holding?
    requires Silent(es)
    ensures Run(cap, rows, es).rows == {}
  {
    Reachable(cap, rows, es);
    AllCounted(cap, rows, es);
    SomeRows(Run(cap, rows, es).rows);
    hide Run, Silent;
  }

  /** The drain then goes idle as empty only with no rows, or with a counted wake-up on its way. */
  lemma {:induction false} IdleMeansEmpty(cap: nat, rows: set<nat>, es: seq<Event>)
    requires var s := Run(cap, rows, es); (s.loop.Checking? || s.loop.Ready?) && s.depth <= 0
    requires Silent(es)
    ensures var s := Run(cap, rows, es); s.rows == {} || (s.trigger.Counting? && |s.rows| == 1)
  {
    Reachable(cap, rows, es);
    AllCounted(cap, rows, es);
    SomeRows(Run(cap, rows, es).rows);
    hide Run, Silent;
  }

  // ---------------------------------------------------------------- what each step achieves

  /** The rows a step takes out of the table: a transaction that failed takes none. */
  function Removed(s: State, e: Event): set<nat> {
    match e
    case Expire(ids, o) => if s.loop.Due? && !o.Failed? then ids else {}
    case Start(o, _) => if s.loop.Starting? && !o.Failed? then {s.loop.item} else {}
    case Cancel(id, o) => if s.stopper.Stopping? && !o.Failed? then {id} else {}
    case DeleteRows(ids) => ids
    case _ => {}
  }

  /** The rows a step puts into it. */
  function Added(s: State, e: Event): set<nat> {
    if e.Enqueue? && s.trigger.Enqueuing? && !e.outcome.Failed? then {e.id} else {}
  }

  /** The table changes exactly as the committed transactions say, whatever the caller was told. */
  lemma {:induction false} RowsFollowCommits(s: State, e: Event)
    requires Inv(s)
    ensures Step(s, e).rows == s.rows - Removed(s, e) + Added(s, e)
  {
    hide Mirrored, LeaveLoop;
    match e
    case Expire(_, _) =>
    case Start(o, _) => StartRows(s, e);
    case Cancel(_, _) =>
    case DeleteRows(_) =>
    case Enqueue(_, _) =>
    case _ => OtherRows(s, e);
  }

  lemma {:induction false} StartRows(s: State, e: Event)
    requires Inv(s) && e.Start?
    ensures LoopStep(s, e).rows == s.rows - Removed(s, e)
  {
    hide Mirrored;
    assert s.loop.Starting? ==> s.slots > 0;
  }

  lemma {:induction false} OtherRows(s: State, e: Event)
    requires !e.Expire? && !e.Start? && !e.Cancel? && !e.DeleteRows? && !e.Enqueue?
    ensures Step(s, e).rows == s.rows
  {
  }

  /** The drain hands its slot to a run only for a row it has just taken out of the table itself. */
  lemma {:induction false} StartedWasQueued(s: State, e: Event)
    requires s.loop != Settling(true) && Step(s, e).loop == Settling(true)
    ensures e == Start(Done, true) && s.loop.Starting? && s.loop.item in s.rows
    ensures Step(s, e).rows == s.rows - {s.loop.item}
  {
  }

  /** A pass that is broken off at any point gives back its slot and the lock. */
  lemma {:induction false} BrokenOffPass(s: State, launched: bool)
    requires Inv(s)
    ensures s.loop.Waiting? || s.loop.Choosing? || s.loop.Recounting? ==>
              GivesBack(s, Step(s, Quit)) && Step(s, Quit).depth == s.depth
    ensures s.loop.Starting? ==>
              GivesBack(s, Step(s, Start(Failed, launched))) && GivesBack(s, Step(s, Start(Unsure, launched)))
  {
    hide Mirrored, Bypass;
    BypassLeaves(s, if s.loop.Starting? then {s.loop.item} else {});
  }

  lemma {:induction false} BypassLeaves(s: State, ids: set<nat>)
    ensures var u := Bypass(s, ids); u == s.(rows := u.rows, bypassed := u.bypassed)
  {
  }

  predicate GivesBack(s: State, u: State) {
    u.loop.Asleep? && u.slots == s.slots - 1 && u.active == s.active && !u.lock.ByDrain?
  }

  /** A pass over a working database up to its look at the queue, with the lock in hand. */
  function ToChoice(s: State, ids: set<nat>): State {
    Step(Step(Step(Step(Step(s, Check), Expire(ids, Done)), ExpireCount), TakeSlot), Admit)
  }

  lemma {:induction false} ChoiceReached(s: State, ids: set<nat>)
    requires s.loop.Checking? && s.lock.Free? && s.slots < s.cap && s.depth > |s.rows * ids|
    ensures ToChoice(s, ids) == s.(rows := s.rows - ids, depth := s.depth - |s.rows * ids|, slots := s.slots + 1,
                                   lock := ByDrain, loop := Choosing)
  {
    hide TriggerStep, OtherStep;
    var a := LoopStep(s, Check);
    assert a == s.(loop := Due);
    var b := LoopStep(a, Expire(ids, Done));
    assert b == s.(rows := s.rows - ids, loop := Expiring(|s.rows * ids|));
    var c := LoopStep(b, ExpireCount);
    assert c == s.(rows := s.rows - ids, depth := s.depth - |s.rows * ids|, loop := Ready);
    var d := LoopStep(c, TakeSlot);
    assert d == c.(slots := s.slots + 1, loop := Waiting);
  }

  /** With a slot free and rows left after expiry, the pass starts the row it chose and counts it out. */
  lemma {:induction false} PassStarts(s: State, ids: set<nat>, id: nat)
    requires s.loop.Checking? && s.lock.Free? && s.slots < s.cap && s.depth > |s.rows * ids| && id in s.rows - ids
    ensures var u := Step(Step(Step(ToChoice(s, ids), Choose(id)), Start(Done, true)), Settle);
            u == s.(rows := s.rows - ids - {id}, depth := s.depth - |s.rows * ids| - 1, slots := s.slots + 1,
                    active := s.active + 1)
  {
    hide TriggerStep, OtherStep, ToChoice;
    ChoiceReached(s, ids);
    var a := ToChoice(s, ids);
    var b := LoopStep(a, Choose(id));
    assert b == a.(loop := Starting(id));
    var c := LoopStep(b, Start(Done, true));
    assert c == a.(rows := a.rows - {id}, loop := Settling(true));
  }

  /** With no row left the pass gives everything back and the mirror is exact again. */
  lemma {:induction false} PassRepairs(s: State, ids: set<nat>, id: nat)
    requires s.loop.Checking? && s.lock.Free? && s.slots < s.cap && s.depth > |s.rows * ids| && s.rows <= ids
    ensures var u := Step(Step(Step(ToChoice(s, ids), Choose(id)), ReadCount), StoreCount);
            u == s.(rows := {}, depth := 0, bypassed := 0, unacked := 0)
  {
    hide TriggerStep, OtherStep, ToChoice;
    ChoiceReached(s, ids);
    var a := ToChoice(s, ids);
    assert a.rows == {};
    var b := LoopStep(a, Choose(id));
    assert b == a.(loop := Recounting);
    var c := LoopStep(b, ReadCount);
    assert c == a.(loop := Resyncing(0));
  }

  /** In every run without an unacknowledged enqueue, the drain that looks while nobody holds the lock does start it. */
  lemma {:induction false} QueuedIsStarted(cap: nat, rows: set<nat>, es: seq<Event>, ids: set<nat>, id: nat)
    requires var s := Run(cap, rows, es);
             s.loop.Checking? && s.lock.Free? && s.slots < cap && id in s.rows - ids
    requires Silent(es)
    ensures var s := Run(cap, rows, es);
            var u := Step(Step(Step(ToChoice(s, ids), Choose(id)), Start(Done, true)), Settle);
            u.active == s.active + 1 && u.rows == s.rows - ids - {id} && u.loop.Checking?
  {
    hide Run, Step, ToChoice, Silent;
    Reachable(cap, rows, es);
    AllCounted(cap, rows, es);
    var s := Run(cap, rows, es);
    Shrinks(s.rows, ids);
    SomeRows(s.rows - ids);
    PassStarts(s, ids, id);
  }

  /** With an unacknowledged commit the promise fails: the next trigger starts ahead of the queued run. */
  lemma {:induction false} UnsureEnqueueIsOvertaken(id: nat)
    ensures exists es :: var s := Run(1, {}, es);
            s.trigger == Deciding(true) && Step(s, TriggerDecide).trigger.Holding? && id in s.rows
  {
    var e3 := [TriggerBegin(true)] + [TriggerDecide] + [TriggerLaunch];
    var e6 := e3 + [TriggerBegin(true)] + [TriggerDecide] + [Enqueue(id, Unsure)];
    var e8 := e6 + [RunEnds] + [TriggerBegin(true)];
    assert [] + [TriggerBegin(true)] == [TriggerBegin(true)] && Run(1, {}, []) == Begin(1, {});
    hide Run, Step;
    RunStep([], TriggerBegin(true));
    RunStep([TriggerBegin(true)], TriggerDecide);
    RunStep([TriggerBegin(true)] + [TriggerDecide], TriggerLaunch);
    RunStep(e3, TriggerBegin(true));
    RunStep(e3 + [TriggerBegin(true)], TriggerDecide);
    RunStep(e3 + [TriggerBegin(true)] + [TriggerDecide], Enqueue(id, Unsure));
    RunStep(e6, RunEnds);
    RunStep(e6 + [RunEnds], TriggerBegin(true));
    UnsureSteps(id);
  }

  lemma {:induction false} RunStep(es: seq<Event>, e: Event)
    ensures Run(1, {}, es + [e]) == Step(Run(1, {}, es), e)
  {
    assert (es + [e])[..|es + [e]| - 1] == es;
  }

  lemma {:induction false} UnsureSteps(id: nat)
    ensures var s3 := Step(Step(Step(Begin(1, {}), TriggerBegin(true)), TriggerDecide), TriggerLaunch);
            var s6 := Step(Step(Step(s3, TriggerBegin(true)), TriggerDecide), Enqueue(id, Unsure));
            var s := Step(Step(s6, RunEnds), TriggerBegin(true));
            s.trigger == Deciding(true) && Step(s, TriggerDecide).trigger.Holding? && id in s.rows
  {
    hide LoopStep, Step;
    var s0 := Begin(1, {});
    FirstTrigger(s0);
    SecondTrigger(s0.(slots := 1, active := 1), id);
    var s := s0.(rows := {id}, unacked := 1);
    ThirdTrigger(s);
  }

  lemma {:induction false} FirstTrigger(s: State)
    requires s == Begin(1, {})
    ensures Step(Step(Step(s, TriggerBegin(true)), TriggerDecide), TriggerLaunch) == s.(slots := 1, active := 1)
  {
    var u := TriggerStep(s, TriggerBegin(true));
    assert u == s.(lock := ByTrigger, trigger := Deciding(true));
    assert TriggerStep(u, TriggerDecide) == s.(slots := 1, lock := ByTrigger, trigger := Holding);
  }

  lemma {:induction false} SecondTrigger(s: State, id: nat)
    requires s == Begin(1, {}).(slots := 1, active := 1)
    ensures Step(Step(Step(Step(s, TriggerBegin(true)), TriggerDecide), Enqueue(id, Unsure)), RunEnds) ==
            Begin(1, {}).(rows := {id}, unacked := 1)
  {
    var u := TriggerStep(s, TriggerBegin(true));
    assert u == s.(lock := ByTrigger, trigger := Deciding(true));
    var v := TriggerStep(u, TriggerDecide);
    assert v == s.(lock := ByTrigger, trigger := Enqueuing);
    assert {} + {id} == {id};
    assert TriggerStep(v, Enqueue(id, Unsure)) == s.(rows := {id}, unacked := 1);
  }

  lemma {:induction false} ThirdTrigger(s: State)
    requires s.lock.Free? && s.depth == 0 && s.slots < s.cap
    ensures var u := Step(s, TriggerBegin(true));
            u == s.(lock := ByTrigger, trigger := Deciding(true)) && Step(u, TriggerDecide).trigger.Holding?
  {
  }
}
