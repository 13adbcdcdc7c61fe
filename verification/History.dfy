/**
 Deferred run history: one run whose row, running state and terminal state may be
 written late by the background writer while the run itself goes on.  The machine has
 one event per step between two lock or database operations, so a run of the machine
 is any interleaving of the two threads under any database outcome.
 */
module History {
  import opened Options

  datatype Status = Pending | Running | Ended(code: nat)

  /** detail stands for every column that the terminal write sets besides the status. */
  datatype Terminal = Terminal(code: nat, detail: nat)

  /** base stands for the columns that only the insert sets. */
  datatype Row = Row(base: nat, status: Status, started: Option<nat>, ended: Option<Terminal>)

  /** What the run does: its first row, then maybe a start, then maybe an end. */
  datatype Plan = Plan(first: Row, start: Option<nat>, end: Option<Terminal>, skips: bool, skipped: Terminal)

  /** The outcome of one database write; Unsure committed and still reported an error. */
  datatype Outcome = Done | Failed | Unsure

  /** The deferred history of the run; generation tells a new item from a retired one. */
  datatype Item = Item(generation: nat, create: bool, start: bool, started: nat, done: bool, terminal: Terminal)

  datatype Live =
    | Init | Unstored | Refused | Admitted
    | Starting | StartUnstored | Started
    | Finishing | EndUnstored | Finished

  datatype Stage = CreateRow | CheckRow | ClearCreate | StartRow | ClearStart | EndRow | Retire

  /** The background writer, with the snapshot it works from. */
  datatype Writer = Idle | Busy(stage: Stage, view: Item)

  datatype Fate = Kept | Conflicted | Lost

  datatype State = State(
    plan: Plan, row: Option<Row>, item: Option<Item>, live: Live, writer: Writer,
    occupied: bool,    // another run recorded the same scheduled occurrence
    skipped: bool,     // the run was declined because its row could not be stored
    fate: Fate,        // whether the writer dropped the item, and over what
    generation: nat,
    wroteStart: bool, wroteEnd: bool)

  datatype Event =
    | Admit(outcome: Outcome) | AdmitLater | SpoolRow
    | CheckStart | Start(outcome: Outcome) | StartLater | SpoolStart
    | CheckEnd | End(outcome: Outcome) | EndLater | SpoolEnd
    | Snapshot | WriteRow(outcome: Outcome) | Lookup(found: bool) | RowWritten
    | WriteStart(outcome: Outcome) | StartWritten | WriteEnd(outcome: Outcome) | Finish
    | Occupy

  // ---------------------------------------------------------------- the database

  /** A start is accepted only from pending. */
  predicate Startable(r: Option<Row>) { r.Some? && r.value.status.Pending? }

  function WithStart(r: Row, info: nat): Row { r.(status := Running, started := Some(info)) }

  /** An end is accepted unless the row ended with another status. */
  predicate Endable(r: Option<Row>, t: Terminal) {
    r.Some? && (r.value.status.Ended? ==> r.value.status == Ended(t.code))
  }

  function WithEnd(r: Row, t: Terminal): Row { r.(status := Ended(t.code), ended := Some(t)) }

  /** The row that direct writes leave behind when nothing fails. */
  function Direct(p: Plan, skipped: bool): Row {
    if skipped then WithEnd(p.first, p.skipped)
    else
      var r := if p.start.Some? then WithStart(p.first, p.start.value) else p.first;
      if p.end.Some? then WithEnd(r, p.end.value) else r
  }

  // ---------------------------------------------------------------- the steps

  function Create(s: State): State { s.(row := Some(s.plan.first)) }

  function StoreStart(s: State, info: nat): State
    requires s.row.Some?
  {
    s.(row := Some(WithStart(s.row.value, info)), wroteStart := true)
  }

  function StoreEnd(s: State, t: Terminal): State
    requires s.row.Some?
  {
    s.(row := Some(WithEnd(s.row.value, t)), wroteEnd := true)
  }

  const BLANK := Item(0, false, false, 0, false, Terminal(0, 0))

  /** The current item, or a new one. */
  function ItemOf(s: State): Item {
    if s.item.Some? then s.item.value else BLANK.(generation := s.generation)
  }

  function Spool(s: State, it: Item): State {
    s.(item := Some(it), generation := if s.item.Some? then s.generation else s.generation + 1)
  }

  function LiveStep(s: State, e: Event): (u: State)
    ensures u.plan == s.plan && u.fate == s.fate && (s.item.Some? ==> u.item.Some?)
  {
    match e
    case Admit(o) =>
      if !s.live.Init? || s.row.Some? then s
      else if s.occupied then s.(live := Refused)
      else if o.Done? then Create(s).(live := if Recording(s.plan) then Finished else Admitted)
      else if o.Unsure? then Create(s).(live := Unstored)
      else s.(live := Unstored)
    case AdmitLater => if s.live.Init? then s.(live := Unstored) else s
    case SpoolRow =>
      if !s.live.Unstored? then s
      else if s.plan.skips then
        Spool(s, ItemOf(s).(create := true, done := true, terminal := s.plan.skipped))
          .(live := Finished, skipped := true)
      else Spool(s, ItemOf(s).(create := true)).(live := if Recording(s.plan) then Finished else Admitted)
    case CheckStart =>
      if !s.live.Admitted? || s.plan.start.None? then s
      else if s.item.Some? then
        Spool(s, ItemOf(s).(start := true, started := s.plan.start.value)).(live := Started)
      else s.(live := Starting)
    case Start(o) =>
      if !s.live.Starting? || s.plan.start.None? then s
      else if !Startable(s.row) then s.(live := Started)
      else if o.Done? then StoreStart(s, s.plan.start.value).(live := Started)
      else if o.Unsure? then StoreStart(s, s.plan.start.value).(live := StartUnstored)
      else s.(live := StartUnstored)
    case StartLater => if s.live.Starting? then s.(live := StartUnstored) else s
    case SpoolStart =>
      if !s.live.StartUnstored? || s.plan.start.None? then s
      else Spool(s, ItemOf(s).(start := true, started := s.plan.start.value)).(live := Started)
    case CheckEnd =>
      if !(s.live.Started? || (s.live.Admitted? && s.plan.start.None?)) || s.plan.end.None? then s
      else if s.item.Some? then
        Spool(s, ItemOf(s).(done := true, terminal := s.plan.end.value)).(live := Finished)
      else s.(live := Finishing)
    case End(o) =>
      if !s.live.Finishing? || s.plan.end.None? then s
      else if !Endable(s.row, s.plan.end.value) then s.(live := Finished)
      else if o.Done? then StoreEnd(s, s.plan.end.value).(live := Finished)
      else if o.Unsure? then StoreEnd(s, s.plan.end.value).(live := EndUnstored)
      else s.(live := EndUnstored)
    case EndLater => if s.live.Finishing? then s.(live := EndUnstored) else s
    case SpoolEnd =>
      if !s.live.EndUnstored? || s.plan.end.None? then s
      else Spool(s, ItemOf(s).(done := true, terminal := s.plan.end.value)).(live := Finished)
    case _ => s
  }

  /** A row recorded after the fact has no start and no end of its own. */
  predicate Recording(p: Plan) { p.start.None? && p.end.None? }

  function To(s: State, stage: Stage): State
    requires s.writer.Busy?
  {
    s.(writer := Busy(stage, s.writer.view))
  }

  predicate AtStage(s: State, stage: Stage) { s.writer.Busy? && s.writer.stage == stage }

  /** A view without a stage passes over it. */
  function First(v: Item): Stage { if v.create then CreateRow else Second(v) }
  function Second(v: Item): Stage { if v.start then StartRow else Third(v) }
  function Third(v: Item): Stage { if v.done then EndRow else Retire }

  function Drop(s: State, fate: Fate): State { s.(item := None, writer := Idle, fate := fate) }

  function WriterStep(s: State, e: Event): (u: State)
    ensures u.plan == s.plan
    ensures s.item.Some? && u.item.None? ==> e.Lookup? || e.WriteEnd? || e.Finish?
    ensures u.fate == s.fate || e.Lookup? || e.WriteEnd?
  {
    match e
    case Snapshot =>
      if s.writer.Idle? && s.item.Some? then s.(writer := Busy(First(s.item.value), s.item.value)) else s
    case WriteRow(o) =>
      if !AtStage(s, CreateRow) then s
      else if o.Failed? then s.(writer := Idle)
      else if s.row.Some? || s.occupied then To(s, CheckRow)
      else if o.Done? then To(Create(s), ClearCreate)
      else Create(s).(writer := Idle)
    case Lookup(found) =>
      if !AtStage(s, CheckRow) then s
      else if s.row.Some? && found then To(s, ClearCreate)
      else Drop(s, if s.row.None? then Conflicted else if Misread(s) then Lost else s.fate)
    case RowWritten =>
      if !AtStage(s, ClearCreate) || s.item.None? then s
      else To(s, Second(s.writer.view)).(item := Some(s.item.value.(create := false)))
    case WriteStart(o) =>
      if !AtStage(s, StartRow) then s
      else if o.Failed? then s.(writer := Idle)
      else if !Startable(s.row) then To(s, ClearStart)
      else if o.Done? then To(StoreStart(s, s.writer.view.started), ClearStart)
      else StoreStart(s, s.writer.view.started).(writer := Idle)
    case StartWritten =>
      if !AtStage(s, ClearStart) || s.item.None? then s
      else To(s, Third(s.writer.view)).(item := Some(s.item.value.(start := false)))
    case WriteEnd(o) =>
      if !AtStage(s, EndRow) then s
      else if o.Failed? then s.(writer := Idle)
      else if !Endable(s.row, s.writer.view.terminal) then Drop(s, if s.row.Some? then s.fate else Conflicted)
      else if o.Done? then To(StoreEnd(s, s.writer.view.terminal), Retire)
      else StoreEnd(s, s.writer.view.terminal).(writer := Idle)
    case Finish =>
      if !AtStage(s, Retire) then s
      else if Retires(s) then s.(item := None, writer := Idle)
      else s.(writer := Idle)
    case _ => s
  }

  /** The item that is about to be dropped holds a stage besides the row. */
  predicate Misread(s: State) { s.item.Some? && (s.item.value.start || s.item.value.done) }

  predicate Retires(s: State)
    requires s.writer.Busy?
  {
    && s.item.Some? && s.item.value.generation == s.writer.view.generation
    && !s.item.value.create && !s.item.value.start && (s.writer.view.done || !s.item.value.done)
  }

  function Step(s: State, e: Event): State {
    match e
    case Occupy => if s.row.None? then s.(occupied := true) else s
    case Snapshot => WriterStep(s, e)
    case WriteRow(_) => WriterStep(s, e)
    case Lookup(_) => WriterStep(s, e)
    case RowWritten => WriterStep(s, e)
    case WriteStart(_) => WriterStep(s, e)
    case StartWritten => WriterStep(s, e)
    case WriteEnd(_) => WriterStep(s, e)
    case Finish => WriterStep(s, e)
    case _ => LiveStep(s, e)
  }

  function Begin(p: Plan): State {
    State(p, None, None, Init, Idle, false, false, Kept, 0, false, false)
  }

  function Run(p: Plan, es: seq<Event>): State {
    if es == [] then Begin(p) else Step(Run(p, es[..|es| - 1]), es[|es| - 1])
  }

  // ---------------------------------------------------------------- the invariant

  predicate ValidPlan(p: Plan) {
    if Recording(p) then !p.skips
    else p.end.Some? && p.first.status.Pending? && p.first.started.None? && p.first.ended.None?
  }

  function TerminalOf(s: State): Option<Terminal> { if s.skipped then Some(s.plan.skipped) else s.plan.end }

  /** The row with the stages written so far. */
  function Built(s: State): Row {
    var r := if s.wroteStart && s.plan.start.Some? then WithStart(s.plan.first, s.plan.start.value) else s.plan.first;
    if s.wroteEnd && TerminalOf(s).Some? then WithEnd(r, TerminalOf(s).value) else r
  }

  predicate HandedRow(s: State) { !s.live.Init? && !s.live.Unstored? && !s.live.Refused? }

  predicate HandedStart(s: State) {
    s.plan.start.Some? && !s.skipped && (s.live.Started? || s.live.Finishing? || s.live.EndUnstored?
        || s.live.Finished?)
  }

  predicate HandedEnd(s: State) { s.live.Finished? && TerminalOf(s).Some? }

  /** Each stage the run handed over is in the row or in the item. */
  predicate Covered(s: State) {
    && (HandedRow(s) ==> s.row.Some? || (s.item.Some? && s.item.value.create))
    && (HandedStart(s) ==> s.wroteStart || (s.item.Some? && s.item.value.start))
    && (HandedEnd(s) ==> s.wroteEnd || (s.item.Some? && s.item.value.done))
  }

  /** An item holds only stages that the run handed over. */
  predicate Honest(s: State) {
    s.item.Some? ==>
      && HandedRow(s) && s.item.value.generation < s.generation
      && (if s.item.value.create then !s.wroteStart && !s.wroteEnd else s.row.Some?)
      && (s.item.value.start ==> HandedStart(s) && s.item.value.started == s.plan.start.value)
      && (s.item.value.done ==> HandedEnd(s) && s.item.value.terminal == TerminalOf(s).value)
  }

  /** The row is a prefix of the direct path, and the end is never written before the start. */
  predicate Prefix(s: State) {
    && (s.row.Some? ==> s.row.value == Built(s))
    && (s.row.None? ==> !s.wroteStart && !s.wroteEnd)
    && (s.wroteStart ==> HandedStart(s) || s.live.StartUnstored?)
    && (s.wroteEnd ==> (HandedEnd(s) || s.live.EndUnstored?) && (s.wroteStart || !NeedsStart(s)))
    && (s.skipped ==> s.live.Finished? && s.plan.skips)
    && ((s.live.Starting? || s.live.StartUnstored? || s.live.Started?) ==> s.plan.start.Some?)
    && ((s.live.Finishing? || s.live.EndUnstored?) ==> s.plan.end.Some?)
    && (Recording(s.plan) ==> s.live.Init? || s.live.Unstored? || s.live.Refused? || s.live.Finished?)
    && ((s.live.Init? || s.live.Unstored? || s.live.Refused?) ==> s.item.None?)
  }

  predicate NeedsStart(s: State) { s.plan.start.Some? && !s.skipped && !s.live.Admitted? }

  /** While the run writes directly there is no item. */
  predicate DirectAlone(s: State) {
    (s.live.Starting? || s.live.StartUnstored? || s.live.Finishing? || s.live.EndUnstored?)
        ==> s.item.None? && s.row.Some?
  }

  /** What the writer knows at each stage of its pass. */
  predicate Informed(s: State) {
    s.writer.Busy? ==>
      var v, st := s.writer.view, s.writer.stage;
      && s.item.Some? && v.generation == s.item.value.generation
      && (v.start ==> HandedStart(s) && v.started == s.plan.start.value)
      && (v.done ==> HandedEnd(s) && v.terminal == TerminalOf(s).value)
      && (v.done && NeedsStart(s) ==> v.start || s.wroteStart)
      && (s.item.value.create ==> v.create && (st == CreateRow || st == CheckRow || st == ClearCreate))
      && (st == CreateRow || st == CheckRow ==> v.create && s.item.value.create)
      && (st == ClearCreate ==> s.row.Some?)
      && (st == StartRow ==> v.start && s.row.Some?)
      && (st == ClearStart ==> s.wroteStart)
      && (st == EndRow ==> v.done && s.row.Some? && (v.start ==> s.wroteStart))
      && (st == Retire ==> (v.done ==> s.wroteEnd))
  }

  /** A stage that was dropped stays missing from the row. */
  predicate Missing(s: State) {
    && s.row.Some?
    && (|| (HandedStart(s) && s.row.value.started.None?
        && (s.item.Some? ==> !s.item.value.start && !s.item.value.create) &&
            (s.writer.Busy? ==> !s.writer.view.start && !s.writer.view.create))
        || (HandedEnd(s) && s.row.value.ended.None? && s.item.None? && s.writer.Idle?))
  }

  predicate Inv(s: State) {
    && ValidPlan(s.plan)
    && (AtStage(s, CheckRow) && s.row.None? ==> s.occupied)
    && (AtStage(s, StartRow) ==> s.writer.view.start)
    && (s.fate.Lost? ==> Missing(s))
    && (s.fate.Kept? ==> Covered(s) && Honest(s) && Prefix(s) && DirectAlone(s) && Informed(s))
    && (s.fate.Conflicted? ==> s.occupied && s.row.None?)
  }

  lemma {:induction false} AdmitKeeps(s: State, o: Outcome)
    requires Inv(s)
    ensures Inv(LiveStep(s, Admit(o)))
  {
  }

  lemma {:induction false} AdmitLaterKeeps(s: State)
    requires Inv(s)
    ensures Inv(LiveStep(s, AdmitLater))
  {
  }

  lemma {:induction false} SpoolRowKeeps(s: State)
    requires Inv(s)
    ensures Inv(LiveStep(s, SpoolRow))
  {
  }

  lemma {:induction false} CheckStartKeeps(s: State)
    requires Inv(s)
    ensures Inv(LiveStep(s, CheckStart))
  {
  }

  lemma {:induction false} StartKeeps(s: State, o: Outcome)
    requires Inv(s)
    ensures Inv(LiveStep(s, Start(o)))
  {
  }

  lemma {:induction false} StartLaterKeeps(s: State)
    requires Inv(s)
    ensures Inv(LiveStep(s, StartLater))
  {
  }

  lemma {:induction false} SpoolStartKeeps(s: State)
    requires Inv(s)
    ensures Inv(LiveStep(s, SpoolStart))
  {
  }

  lemma {:induction false} CheckEndKeeps(s: State)
    requires Inv(s)
    ensures Inv(LiveStep(s, CheckEnd))
  {
  }

  lemma {:induction false} EndKeeps(s: State, o: Outcome)
    requires Inv(s)
    ensures Inv(LiveStep(s, End(o)))
  {
    if s.fate.Kept? {
      hide Missing;
    } else {
      hide Covered, Honest, Prefix, DirectAlone, Informed;
    }
  }

  lemma {:induction false} EndLaterKeeps(s: State)
    requires Inv(s)
    ensures Inv(LiveStep(s, EndLater))
  {
  }

  lemma {:induction false} SpoolEndKeeps(s: State)
    requires Inv(s)
    ensures Inv(LiveStep(s, SpoolEnd))
  {
  }

  lemma {:induction false} SnapshotKeeps(s: State)
    requires Inv(s)
    ensures Inv(WriterStep(s, Snapshot))
  {
  }

  lemma {:induction false} WriteRowKeeps(s: State, o: Outcome)
    requires Inv(s)
    ensures Inv(WriterStep(s, WriteRow(o)))
  {
  }

  lemma {:induction false} LookupKeeps(s: State, found: bool)
    requires Inv(s)
    ensures Inv(WriterStep(s, Lookup(found)))
  {
  }

  lemma {:induction false} RowWrittenKeeps(s: State)
    requires Inv(s)
    ensures Inv(WriterStep(s, RowWritten))
  {
  }

  lemma {:induction false} WriteStartKeeps(s: State, o: Outcome)
    requires Inv(s)
    ensures Inv(WriterStep(s, WriteStart(o)))
  {
  }

  lemma {:induction false} StartWrittenKeeps(s: State)
    requires Inv(s)
    ensures Inv(WriterStep(s, StartWritten))
  {
  }

  lemma {:induction false} WriteEndKeeps(s: State, o: Outcome)
    requires Inv(s)
    ensures Inv(WriterStep(s, WriteEnd(o)))
  {
    if s.fate.Kept? {
      hide Missing;
    } else {
      hide Covered, Honest, Prefix, DirectAlone, Informed;
    }
  }

  lemma {:induction false} FinishKeeps(s: State)
    requires Inv(s)
    ensures Inv(WriterStep(s, Finish))
  {
  }

  lemma {:induction false} StepKeeps(s: State, e: Event)
    requires Inv(s)
    ensures Inv(Step(s, e))
  {
    hide LiveStep, WriterStep, Inv;
    match e
    case Admit(o) => AdmitKeeps(s, o);
    case AdmitLater => AdmitLaterKeeps(s);
    case SpoolRow => SpoolRowKeeps(s);
    case CheckStart => CheckStartKeeps(s);
    case Start(o) => StartKeeps(s, o);
    case StartLater => StartLaterKeeps(s);
    case SpoolStart => SpoolStartKeeps(s);
    case CheckEnd => CheckEndKeeps(s);
    case End(o) => EndKeeps(s, o);
    case EndLater => EndLaterKeeps(s);
    case SpoolEnd => SpoolEndKeeps(s);
    case Snapshot => SnapshotKeeps(s);
    case WriteRow(o) => WriteRowKeeps(s, o);
    case Lookup(found) => LookupKeeps(s, found);
    case RowWritten => RowWrittenKeeps(s);
    case WriteStart(o) => WriteStartKeeps(s, o);
    case StartWritten => StartWrittenKeeps(s);
    case WriteEnd(o) => WriteEndKeeps(s, o);
    case Finish => FinishKeeps(s);
    case Occupy => OccupyKeeps(s);
  }

  lemma {:induction false} OccupyKeeps(s: State)
    requires Inv(s)
    ensures Inv(Step(s, Occupy))
  {
  }

  // ---------------------------------------------------------------- what the row says

  /** The status says which of the two later stages the row holds. */
  predicate Tells(r: Row) {
    if r.ended.Some? then r.status == Ended(r.ended.value.code)
    else if r.started.Some? then r.status.Running?
    else r.status.Pending?
  }

  /** The stages an item holds are the plan's own. */
  predicate Planned(p: Plan, skipped: bool, it: Item) {
    && (it.start ==> p.start == Some(it.started))
    && (it.done ==> Some(it.terminal) == p.end || (skipped && it.terminal == p.skipped))
  }

  /** The row is the plan's, its status tells its stages, and its stages are the plan's own. */
  predicate RowTells(p: Plan, skipped: bool, row: Option<Row>, wroteStart: bool, wroteEnd: bool) {
    if row.None? then !wroteStart && !wroteEnd
    else
      var r := row.value;
      && Tells(r) && r.base == p.first.base
      && (wroteStart <==> r.started.Some?) && (wroteEnd <==> r.ended.Some?)
      && (r.started.Some? ==> r.started == p.start)
      && (r.ended.Some? ==> r.ended == p.end || (skipped && r.ended.value == p.skipped))
  }

  predicate Labelled(s: State) {
    && s.plan.first.status.Pending? && s.plan.first.started.None? && s.plan.first.ended.None?
    && RowTells(s.plan, s.skipped, s.row, s.wroteStart, s.wroteEnd)
    && (s.item.Some? ==> Planned(s.plan, s.skipped, s.item.value))
    && (s.writer.Busy? ==> Planned(s.plan, s.skipped, s.writer.view))
    && (AtStage(s, StartRow) ==> s.writer.view.start) && (AtStage(s, EndRow) ==> s.writer.view.done)
  }

  lemma {:induction false} StartTells(p: Plan, skipped: bool, r: Row, wroteEnd: bool, info: nat)
    requires RowTells(p, skipped, Some(r), false, wroteEnd) && r.status.Pending? && p.start == Some(info)
    ensures RowTells(p, skipped, Some(WithStart(r, info)), true, wroteEnd)
  {
  }

  lemma {:induction false} EndTells(p: Plan, skipped: bool, r: Row, wroteStart: bool, wroteEnd: bool, t: Terminal)
    requires RowTells(p, skipped, Some(r), wroteStart, wroteEnd) && (Some(t) == p.end || (skipped && t == p.skipped))
    ensures RowTells(p, skipped, Some(WithEnd(r, t)), wroteStart, true)
  {
  }

  lemma {:induction false} NotStarted(s: State)
    requires Labelled(s) && Startable(s.row)
    ensures !s.wroteStart
  {
  }

  lemma {:induction false} AdmitLabels(s: State, o: Outcome)
    requires Labelled(s)
    ensures Labelled(LiveStep(s, Admit(o)))
  {
  }

  lemma {:induction false} StartLabels(s: State, o: Outcome)
    requires Labelled(s)
    ensures Labelled(LiveStep(s, Start(o)))
  {
    if Startable(s.row) && s.plan.start.Some? {
      NotStarted(s);
      StartTells(s.plan, s.skipped, s.row.value, s.wroteEnd, s.plan.start.value);
    }
    hide RowTells, Planned, WithStart;
  }

  lemma {:induction false} EndLabels(s: State, o: Outcome)
    requires Labelled(s)
    ensures Labelled(LiveStep(s, End(o)))
  {
    hide RowTells, Planned, WithEnd;
    if s.row.Some? && s.plan.end.Some? {
      EndTells(s.plan, s.skipped, s.row.value, s.wroteStart, s.wroteEnd, s.plan.end.value);
    }
  }

  lemma {:induction false} CheckLabels(s: State, e: Event)
    requires Labelled(s) && (e.CheckStart? || e.CheckEnd?)
    ensures Labelled(LiveStep(s, e))
  {
  }

  lemma {:induction false} DeferLabels(s: State, e: Event)
    requires Labelled(s) && (e.AdmitLater? || e.StartLater? || e.EndLater?)
    ensures Labelled(LiveStep(s, e))
  {
    hide RowTells, Planned;
  }

  lemma {:induction false} SpoolRowLabels(s: State)
    requires Labelled(s)
    ensures Labelled(LiveStep(s, SpoolRow))
  {
  }

  lemma {:induction false} SpoolLabels(s: State, e: Event)
    requires Labelled(s) && (e.SpoolStart? || e.SpoolEnd?)
    ensures Labelled(LiveStep(s, e))
  {
  }

  lemma {:induction false} LateRowLabels(s: State, o: Outcome)
    requires Labelled(s)
    ensures Labelled(WriterStep(s, WriteRow(o)))
  {
  }

  lemma {:induction false} LateStartLabels(s: State, o: Outcome)
    requires Labelled(s)
    ensures Labelled(WriterStep(s, WriteStart(o)))
  {
    if Startable(s.row) && AtStage(s, StartRow) {
      NotStarted(s);
      StartTells(s.plan, s.skipped, s.row.value, s.wroteEnd, s.writer.view.started);
    }
    hide RowTells, Planned, WithStart;
  }

  lemma {:induction false} LateEndLabels(s: State, o: Outcome)
    requires Labelled(s)
    ensures Labelled(WriterStep(s, WriteEnd(o)))
  {
    if s.row.Some? && AtStage(s, EndRow) {
      EndTells(s.plan, s.skipped, s.row.value, s.wroteStart, s.wroteEnd, s.writer.view.terminal);
    }
    hide RowTells, Planned, WithEnd;
  }

  lemma {:induction false} LookLabels(s: State, e: Event)
    requires Labelled(s) && (e.Snapshot? || e.Lookup?)
    ensures Labelled(WriterStep(s, e))
  {
    hide RowTells, Planned;
  }

  lemma {:induction false} ClearLabels(s: State, e: Event)
    requires Labelled(s) && (e.RowWritten? || e.StartWritten? || e.Finish?)
    ensures Labelled(WriterStep(s, e))
  {
    hide RowTells;
  }

  lemma {:induction false} StepLabels(s: State, e: Event)
    requires Labelled(s)
    ensures Labelled(Step(s, e))
  {
    hide LiveStep, WriterStep, Labelled;
    match e
    case Admit(o) => AdmitLabels(s, o);
    case Start(o) => StartLabels(s, o);
    case End(o) => EndLabels(s, o);
    case CheckStart => CheckLabels(s, e);
    case CheckEnd => CheckLabels(s, e);
    case AdmitLater => DeferLabels(s, e);
    case StartLater => DeferLabels(s, e);
    case EndLater => DeferLabels(s, e);
    case SpoolRow => SpoolRowLabels(s);
    case SpoolStart => SpoolLabels(s, e);
    case SpoolEnd => SpoolLabels(s, e);
    case WriteRow(o) => LateRowLabels(s, o);
    case WriteStart(o) => LateStartLabels(s, o);
    case WriteEnd(o) => LateEndLabels(s, o);
    case Snapshot => LookLabels(s, e);
    case Lookup(_) => LookLabels(s, e);
    case RowWritten => ClearLabels(s, e);
    case StartWritten => ClearLabels(s, e);
    case Finish => ClearLabels(s, e);
    case Occupy => OccupyLabels(s);
  }

  lemma {:induction false} OccupyLabels(s: State)
    requires Labelled(s)
    ensures Labelled(Step(s, Occupy))
  {
  }

  /** The row that a step's transaction commits, if it gets to one and does not fail. */
  function Committed(s: State, e: Event): Option<Row> {
    match e
    case Admit(o) => if s.live.Init? && s.row.None? && !s.occupied && !o.Failed? then Some(s.plan.first) else s.row
    case Start(o) =>
      if s.live.Starting? && s.plan.start.Some? && Startable(s.row) && !o.Failed?
      then Some(s.row.value.(status := Running, started := s.plan.start)) else s.row
    case End(o) =>
      if s.live.Finishing? && s.plan.end.Some? && Endable(s.row, s.plan.end.value) && !o.Failed?
      then Some(s.row.value.(status := Ended(s.plan.end.value.code), ended := s.plan.end)) else s.row
    case WriteRow(o) =>
      if AtStage(s, CreateRow) && s.row.None? && !s.occupied && !o.Failed? then Some(s.plan.first) else s.row
    case WriteStart(o) =>
      if AtStage(s, StartRow) && Startable(s.row) && !o.Failed?
      then Some(s.row.value.(status := Running, started := Some(s.writer.view.started))) else s.row
    case WriteEnd(o) =>
      if AtStage(s, EndRow) && Endable(s.row, s.writer.view.terminal) && !o.Failed?
      then Some(s.row.value.(status := Ended(s.writer.view.terminal.code), ended := Some(s.writer.view.terminal)))
      else s.row
    case _ => s.row
  }

  lemma {:induction false} LiveCommits(s: State, e: Event)
    ensures !e.WriteRow? && !e.WriteStart? && !e.WriteEnd? ==> LiveStep(s, e).row == Committed(s, e)
  {
  }

  lemma {:induction false} WriterCommits(s: State, e: Event)
    ensures !e.Admit? && !e.Start? && !e.End? ==> WriterStep(s, e).row == Committed(s, e)
  {
  }

  /** In any state, the row changes exactly as the committed transactions say, whatever was reported. */
  lemma {:induction false} RowFollowsCommits(s: State, e: Event)
    ensures Step(s, e).row == Committed(s, e)
  {
    LiveCommits(s, e);
    WriterCommits(s, e);
    hide LiveStep, WriterStep;
  }

  /** A direct write that was reported as failed is remembered as unstored, any other is done with. */
  lemma {:induction false} ReportDecides(s: State, o: Outcome)
    ensures s.live.Init? && s.row.None? && !s.occupied ==> (Step(s, Admit(o)).live.Unstored? <==> !o.Done?)
    ensures s.live.Starting? && s.plan.start.Some? && Startable(s.row) ==>
              (Step(s, Start(o)).live.StartUnstored? <==> !o.Done?) && (o.Done? ==> Step(s, Start(o)).live.Started?)
    ensures s.live.Finishing? && s.plan.end.Some? && Endable(s.row, s.plan.end.value) ==>
              (Step(s, End(o)).live.EndUnstored? <==> !o.Done?) && (o.Done? ==> Step(s, End(o)).live.Finished?)
  {
    hide WriterStep;
  }

  /** In any state whatever, the first start and the first end that are stored stay. */
  lemma {:induction false} FirstWriteWins(s: State, e: Event)
    requires s.row.Some? && !s.row.value.status.Pending?
    ensures Step(s, e).row.Some? && Step(s, e).row.value.started == s.row.value.started
    ensures s.row.value.status.Ended? ==> Step(s, e).row.value.status == s.row.value.status
  {
    RowFollowsCommits(s, e);
    hide Step;
  }

  /**
   Under any interleaving and any database outcome, even one that loses stages, the row
   keeps its insert columns and its status is pending, running or the stored end's own.
   */
  lemma {:induction false} StatusTellsStages(p: Plan, es: seq<Event>)
    requires ValidPlan(p) && !Recording(p)
    ensures Labelled(Run(p, es))
    ensures var s := Run(p, es);
            s.row.Some? ==>
              var r := s.row.value;
              && r.base == p.first.base
              && (r.ended.Some? ==> r.status == Ended(r.ended.value.code))
              && (r.ended.None? && r.started.Some? ==> r.status.Running?)
              && (r.ended.None? && r.started.None? ==> r.status.Pending?)
              && (r.started.Some? ==> r.started == p.start)
              && (r.ended.Some? ==> r.ended == if s.skipped then Some(p.skipped) else p.end)
  {
    Reachable(p, es);
    if es != [] {
      StatusTellsStages(p, es[..|es| - 1]);
      StepLabels(Run(p, es[..|es| - 1]), es[|es| - 1]);
      hide Inv, Step;
    }
  }

  // ---------------------------------------------------------------- every interleaving

  lemma {:induction false} Reachable(p: Plan, es: seq<Event>)
    requires ValidPlan(p)
    ensures Inv(Run(p, es)) && Run(p, es).plan == p
  {
    if es != [] {
      Reachable(p, es[..|es| - 1]);
      StepKeeps(Run(p, es[..|es| - 1]), es[|es| - 1]);
      hide Inv, LiveStep, WriterStep;
    }
  }

  /** The row of a lookup that a database failure hides, with stages still waiting behind it. */
  predicate Blind(s: State, e: Event) {
    AtStage(s, CheckRow) && e == Lookup(false) && s.row.Some? && Misread(s)
  }

  predicate Blinded(p: Plan, es: seq<Event>) {
    exists i :: 0 <= i < |es| && Blind(Run(p, es[..i]), es[i])
  }

  lemma {:induction false} LostStep(s: State, e: Event)
    requires Inv(s)
    ensures Step(s, e).fate.Lost? <==> s.fate.Lost? || Blind(s, e)
  {
    hide Covered, Honest, Prefix, DirectAlone, LiveStep;
    match e
    case Lookup(_) =>
    case WriteEnd(_) =>
    case _ => hide WriterStep;
  }

  lemma {:induction false} LostExactly(p: Plan, es: seq<Event>)
    requires ValidPlan(p)
    ensures Run(p, es).fate.Lost? <==> Blinded(p, es)
  {
    if es != [] {
      var n := |es| - 1;
      LostExactly(p, es[..n]);
      Reachable(p, es[..n]);
      LostStep(Run(p, es[..n]), es[n]);
      BlindedStep(p, es);
      hide Inv, Step, Blind, Blinded;
    }
  }

  lemma {:induction false} BlindedStep(p: Plan, es: seq<Event>)
    requires es != []
    ensures var n := |es| - 1; Blinded(p, es) <==> Blinded(p, es[..n]) || Blind(Run(p, es[..n]), es[n])
  {
    hide Run, Blind;
    var n := |es| - 1;
    assert forall i :: 0 <= i < n ==> es[..n][..i] == es[..i] && es[..n][i] == es[i];
    if Blinded(p, es[..n]) {
      var i :| 0 <= i < n && Blind(Run(p, es[..n][..i]), es[..n][i]);
      assert Blind(Run(p, es[..i]), es[i]);
    }
    if Blinded(p, es) {
      var i :| 0 <= i < |es| && Blind(Run(p, es[..i]), es[i]);
      if i < n { assert Blind(Run(p, es[..n][..i]), es[..n][i]); }
    }
  }

  /**
   The main result.  Once the run has handed over its last stage and the item is gone,
   the stored row is the one direct writes would have left, exactly when no failed lookup
   hid the run's own row.  A run without a row lost its occurrence to another run.
   */
  lemma {:induction false} DeferredIsDirect(p: Plan, es: seq<Event>)
    requires ValidPlan(p) && Run(p, es).live.Finished? && Run(p, es).item.None?
    ensures var s := Run(p, es);
            if s.row.Some? then s.row.value == Direct(p, s.skipped) <==> !Blinded(p, es)
            else s.occupied && s.fate.Conflicted?
    ensures var s := Run(p, es);
            s.row.Some? && !Blinded(p, es) ==>
              if Recording(p) then s.row.value == p.first
              else
                var end := if s.skipped then p.skipped else p.end.value;
                s.row.value == Row(p.first.base, Ended(end.code), if s.skipped then None else p.start, Some(end))
  {
    Reachable(p, es);
    LostExactly(p, es);
    hide Run, Blinded;
    Settles(Run(p, es));
  }

  lemma {:induction false} Settles(s: State)
    requires Inv(s) && s.live.Finished? && s.item.None?
    ensures if s.row.Some? then s.row.value == Direct(s.plan, s.skipped) <==> !s.fate.Lost?
            else s.occupied && s.fate.Conflicted?
  {
    hide Informed, DirectAlone, Honest;
  }

  /** The writer gives an item up only when each stage it holds is in the row. */
  lemma {:induction false} RetiredIsWritten(s: State, e: Event)
    requires Inv(s) && s.item.Some? && Step(s, e).item.None? && Step(s, e).fate.Kept?
    ensures var row, it := Step(s, e).row, s.item.value;
            && row.Some? && (it.start ==> row.value.started == Some(it.started))
            && (it.done ==> row.value.ended == Some(it.terminal) && row.value.status == Ended(it.terminal.code))
            && (it.start && row.value.ended.None? ==> row.value.status.Running?)
  {
    hide Missing, LiveStep, Covered, DirectAlone;
    match e
    case Lookup(_) =>
    case WriteEnd(_) =>
    case Finish => FinishWritten(s);
    case _ => hide WriterStep;
  }

  lemma {:induction false} FinishWritten(s: State)
    requires Inv(s) && s.item.Some? && WriterStep(s, Finish).item.None? && s.fate.Kept?
    ensures var row, it := s.row, s.item.value;
            && row.Some? && (it.start ==> row.value.started == Some(it.started))
            && (it.done ==> row.value.ended == Some(it.terminal) && row.value.status == Ended(it.terminal.code))
            && (it.start && row.value.ended.None? ==> row.value.status.Running?)
  {
    hide Missing, Covered, DirectAlone;
  }

  // ---------------------------------------------------------------- recovery and the exception

  /** One pass of the writer over a database that works; a stage the item lacks is passed over. */
  function QuietPass(s: State): State {
    EndPhase(StartPhase(RowPhase(Step(s, Snapshot))))
  }

  function RowPhase(s: State): State { Step(Step(Step(s, WriteRow(Done)), Lookup(true)), RowWritten) }
  function StartPhase(s: State): State { Step(Step(s, WriteStart(Done)), StartWritten) }
  function EndPhase(s: State): State { Step(Step(s, WriteEnd(Done)), Finish) }

  /** The pass is between two phases, and no stage arrived since its snapshot. */
  predicate Between(s: State, stage: Stage, create: bool, start: bool) {
    && Inv(s) && s.fate.Kept? && s.item.Some? && s.writer.Busy? && s.writer.stage == stage
    && s.item.value == s.writer.view.(create := s.writer.view.create && create, start := s.writer.view.start && start)
  }

  lemma {:induction false} RowPhaseWorks(s: State)
    requires s.writer.Busy? && Between(s, First(s.writer.view), true, true) && (s.row.Some? || !s.occupied)
    ensures RowPhase(s).writer.Busy? && Between(RowPhase(s), Second(RowPhase(s).writer.view), false, true)
  {
    hide Inv, WriterStep, LiveStep;
    StepKeeps(s, WriteRow(Done));
    StepKeeps(Step(s, WriteRow(Done)), Lookup(true));
    StepKeeps(Step(Step(s, WriteRow(Done)), Lookup(true)), RowWritten);
    RowPhaseShape(s);
  }

  lemma {:induction false} RowPhaseShape(s: State)
    requires s.writer.Busy? && s.writer.stage == First(s.writer.view) && s.item.Some? && (s.row.Some? || !s.occupied)
    ensures var u := RowPhase(s);
            && u.writer == Busy(Second(s.writer.view), s.writer.view) && u.fate == s.fate
            && u.item == if s.writer.view.create then Some(s.item.value.(create := false)) else s.item
  {
    hide LiveStep;
    if s.writer.view.create {
      var a := WriterStep(s, WriteRow(Done));
      assert a.item == s.item && a.fate == s.fate && a.row.Some?;
      var b := WriterStep(a, Lookup(true));
      assert b.item == s.item && b.fate == s.fate && b.writer == Busy(ClearCreate, s.writer.view);
    } else {
      assert RowPhase(s) == s;
    }
  }

  lemma {:induction false} StartPhaseWorks(s: State)
    requires s.writer.Busy? && Between(s, Second(s.writer.view), false, true)
    ensures StartPhase(s).writer.Busy? && Between(StartPhase(s), Third(StartPhase(s).writer.view), false, false)
  {
    var a := WriterStep(s, WriteStart(Done));
    WriteStartKeeps(s, Done);
    StartWrittenKeeps(a);
    hide Inv, Built, First, Third;
    if !s.writer.view.start {
      assert a == s;
      assert WriterStep(a, StartWritten) == s;
    } else {
      assert a.item == s.item && a.fate == s.fate && a.writer == Busy(ClearStart, s.writer.view);
    }
  }

  lemma {:induction false} EndPhaseWorks(s: State)
    requires s.writer.Busy? && Between(s, Third(s.writer.view), false, false)
    ensures var u := EndPhase(s); Inv(u) && u.item.None? && u.fate.Kept?
  {
    hide Inv, LiveStep;
    if s.writer.view.done { CanEnd(s); }
    var a := WriterStep(s, WriteEnd(Done));
    WriteEndKeeps(s, Done);
    FinishKeeps(a);
  }

  lemma {:induction false} CanEnd(s: State)
    requires Inv(s) && s.fate.Kept? && AtStage(s, EndRow)
    ensures Endable(s.row, s.writer.view.terminal)
  {
    hide Covered, Honest, DirectAlone, Missing;
  }

  /** Whatever happened before, one quiet pass stores everything handed over so far. */
  lemma {:induction false} QuietPassStores(s: State)
    requires Inv(s) && s.fate.Kept? && s.writer.Idle? && s.item.Some? && (s.row.Some? || !s.occupied)
    ensures var u := QuietPass(s);
            && u.item.None? && u.fate.Kept? && (HandedRow(u) ==> u.row.Some?)
            && (HandedStart(u) ==> u.row.Some? && u.row.value.started == u.plan.start)
            && (HandedEnd(u) ==> u.row.Some? && u.row.value.ended == TerminalOf(u)
                                 && u.row.value.status == Ended(TerminalOf(u).value.code))
            && (HandedStart(u) && u.row.value.ended.None? ==> u.row.value.status.Running?)
  {
    hide Inv;
    var a := Step(s, Snapshot);
    SnapshotKeeps(s);
    RowPhaseWorks(a);
    StartPhaseWorks(RowPhase(a));
    EndPhaseWorks(StartPhase(RowPhase(a)));
    hide Between, RowPhase, StartPhase, EndPhase;
    AllStored(QuietPass(s));
  }

  lemma {:induction false} AllStored(u: State)
    requires Inv(u) && u.item.None? && u.fate.Kept?
    ensures (HandedRow(u) ==> u.row.Some?)
    ensures (HandedStart(u) ==> u.row.Some? && u.row.value.started == u.plan.start)
    ensures (HandedEnd(u) ==> u.row.Some? && u.row.value.ended == TerminalOf(u)
                              && u.row.value.status == Ended(TerminalOf(u).value.code))
    ensures (HandedStart(u) && u.row.value.ended.None? ==> u.row.value.status.Running?)
  {
    hide Informed, DirectAlone, Missing;
  }

  /**
   The refinement is not unconditional: an insert that committed but reported failure,
   followed by a failed lookup of that row, discards the running and terminal states.
   */
  lemma {:induction false} HiddenRowLosesTheEnd(base: nat, info: nat, t: Terminal)
    ensures var p := Plan(Row(base, Pending, None, None), Some(info), Some(t), false, t);
            exists es :: ValidPlan(p) && Blinded(p, es) && Run(p, es).live.Finished? && Run(p, es).item.None? &&
                         Run(p, es).row == Some(p.first) != Some(Direct(p, false))
  {
    var p := Plan(Row(base, Pending, None, None), Some(info), Some(t), false, t);
    hide Run, Step;
    var e1, e2 := [Admit(Unsure)], [Admit(Unsure), SpoolRow];
    var e3, e4 := [Admit(Unsure), SpoolRow, CheckStart], [Admit(Unsure), SpoolRow, CheckStart, CheckEnd];
    var e6 := e4 + [Snapshot] + [WriteRow(Done)];
    var e7 := e6 + [Lookup(false)];
    assert e2 == e1 + [SpoolRow] && e3 == e2 + [CheckStart] && e4 == e3 + [CheckEnd] && e1 == [] + [Admit(Unsure)];
    RunStep(p, [], Admit(Unsure));
    RunStep(p, e1, SpoolRow);
    RunStep(p, e2, CheckStart);
    RunStep(p, e3, CheckEnd);
    RunStep(p, e4, Snapshot);
    RunStep(p, e4 + [Snapshot], WriteRow(Done));
    RunStep(p, e6, Lookup(false));
    FourSteps(p, info, t);
    LookupLoses(Waiting(p, info, t));
    assert e7[..6] == e6 && Blind(Run(p, e7[..6]), e7[6]);
  }

  function Waiting(p: Plan, info: nat, t: Terminal): State {
    Begin(p).(row := Some(p.first), live := Finished, item := Some(Item(0, true, true, info, true, t)), generation := 1)
  }

  lemma {:induction false} FourSteps(p: Plan, info: nat, t: Terminal)
    requires p.start == Some(info) && p.end == Some(t) && !p.skips
    ensures Run(p, []) == Begin(p)
    ensures Step(Step(Step(Step(Begin(p), Admit(Unsure)), SpoolRow), CheckStart), CheckEnd) == Waiting(p, info, t)
  {
    hide WriterStep;
    var s1 := LiveStep(Begin(p), Admit(Unsure));
    assert s1 == Begin(p).(row := Some(p.first), live := Unstored);
    var s2 := LiveStep(s1, SpoolRow);
    assert s2 == s1.(item := Some(BLANK.(create := true)), live := Admitted, generation := 1);
    var s3 := LiveStep(s2, CheckStart);
    assert s3 == s2.(item := Some(BLANK.(create := true, start := true, started := info)), live := Started);
  }

  lemma {:induction false} LookupLoses(s: State)
    requires s.row.Some? && s.writer.Idle? && s.item.Some? && s.item.value.create && s.item.value.done
    ensures var u := Step(Step(s, Snapshot), WriteRow(Done));
            Blind(u, Lookup(false)) && Step(u, Lookup(false)) == s.(item := None, fate := Lost)
  {
  }

  lemma {:induction false} RunStep(p: Plan, es: seq<Event>, e: Event)
    ensures Run(p, es + [e]) == Step(Run(p, es), e)
  {
    assert (es + [e])[..|es + [e]| - 1] == es;
  }
}
