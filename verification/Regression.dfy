/** Cursors that move backwards: exactly which steps lower one, why, and a history in which it happens. */
module Regression {
  import opened Wrappers
  import opened Domain
  import opened Journal
  import opened Actions
  import opened Invariant
  import opened Preservation
  import opened Admitting
  import opened Evolution
  import opened Histories
  import opened Cursors

  /** The step leaves run `id` with a smaller cursor. */
  predicate Lowers(w: World, step: WorldStep, id: RequestId) {
    && id in w.journal.runs && id in Next(w, step).journal.runs
    && Next(w, step).journal.runs[id].cursor < w.journal.runs[id].cursor
  }

  // ----- What holds of every world, whether or not its tickets matched -----

  ghost predicate RowsFiled(w: World) {
    && (forall id | id in w.journal.runs :: w.journal.runs[id].id == id)
    && (forall row | row in w.pending :: row.id in w.journal.runs && row.steps == w.journal.runs[row.id].steps)
  }

  ghost predicate Filed(w: World) {
    Inv(w.journal) && HandoffRuns(w.journal) && RowsFiled(w)
  }

  predicate AllPermittedSteps(steps: seq<WorldStep>, n: nat)
    requires n <= |steps|
  {
    forall i | 0 <= i < n :: Permitted(steps[i])
  }

  lemma RowsStayFiled(j: Journal, k: Journal, pending: set<PlanRun>)
    requires RowsFiled(World(j, pending)) && RunsEvolve(j, k)
    ensures RowsFiled(World(k, pending)) && RowsFiled(World(k, {}))
  {
    hide RunsEvolve, CompletedPrefix;
    RunsKeyed(j, k);
    forall row | row in pending
      ensures row.id in k.runs && row.steps == k.runs[row.id].steps
    {
      RowStaysFiled(j, k, row);
    }
  }

  lemma RowStaysFiled(j: Journal, k: Journal, row: PlanRun)
    requires RunsEvolve(j, k) && row.id in j.runs && row.steps == j.runs[row.id].steps
    ensures row.id in k.runs && row.steps == k.runs[row.id].steps
  {
    hide CompletedPrefix;
    assert RunEvolves(j, j.runs[row.id], k.runs[row.id]);
  }

  lemma ActFiles(w: World, action: Action)
    requires Filed(w) && Permitted(Act(action))
    ensures Filed(Next(w, Act(action))) && RunsEvolve(w.journal, Apply(w.journal, action))
  {
    assert forall id | id in w.journal.runs :: w.journal.runs[id].id == id;
    hide Inv, Apply, Keyed, RunsEvolve, Evolves, Admissible, HandoffRuns, RowsFiled;
    InvKeyed(w.journal);
    StepKeepsAndEvolves(w.journal, action);
    RunsStep(w.journal, action);
    RowsStayFiled(w.journal, Apply(w.journal, action), w.pending);
  }

  lemma WriteFiles(w: World, row: PlanRun)
    requires Filed(w) && row in w.pending
    ensures Filed(Next(w, WriteRow(row)))
  {
    hide Inv, HandoffRuns, Evolves;
    StepKeepsAndEvolves(w.journal, DoWriteRun(row));
    WriteKeepsHandoffs(w.journal, row);
  }

  lemma StepFiles(w: World, step: WorldStep)
    requires Filed(w) && Permitted(step)
    ensures Filed(Next(w, step))
  {
    hide Filed, Next, Permitted;
    match step {
      case Act(action) => ActFiles(w, action);
      case WriteRow(row) =>
        if row in w.pending { WriteFiles(w, row); } else { IdleWrite(w, row); }
      case ReadRun(t) => ReadFiles(w, t);
    }
  }

  lemma IdleWrite(w: World, row: PlanRun)
    requires row !in w.pending
    ensures Next(w, WriteRow(row)) == w
  {
  }

  lemma ReadFiles(w: World, t: Ticket)
    requires Filed(w)
    ensures Filed(Next(w, ReadRun(t)))
  {
    hide Inv, HandoffRuns;
  }

  lemma {:induction false} AlwaysFiled(steps: seq<WorldStep>, n: nat)
    requires n <= |steps| && AllPermittedSteps(steps, n)
    ensures Filed(WorldAt(steps, n))
    decreases n
  {
    hide Filed, Next, Permitted;
    if n == 0 {
      StartFiled();
    } else {
      AlwaysFiled(steps, n - 1);
      StepFiles(WorldAt(steps, n - 1), steps[n - 1]);
    }
  }

  lemma StartFiled()
    ensures Filed(START)
  {
    hide Inv;
    EmptyInv();
  }

  // ----- Which steps lower a cursor, and which raise one -----

  /** A step lowers a cursor exactly when it writes a row that was read earlier and now lags behind the stored one. */
  lemma LowersIff(w: World, step: WorldStep, id: RequestId)
    requires Filed(w) && Permitted(step)
    ensures Lowers(w, step, id) <==>
            step.WriteRow? && step.row in w.pending && step.row.id == id && step.row.cursor < w.journal.runs[id].cursor
  {
    match step {
      case Act(action) =>
        ActFiles(w, action);
        hide Filed, Permitted, Apply, RunsEvolve;
        if id in w.journal.runs { NeverDown(w.journal, Apply(w.journal, action), id); }
      case WriteRow(row) => hide Inv, HandoffRuns;
      case ReadRun(t) => hide Filed;
    }
  }

  lemma NeverDown(j: Journal, k: Journal, id: RequestId)
    requires RunsEvolve(j, k) && id in j.runs
    ensures id in k.runs && j.runs[id].cursor <= k.runs[id].cursor
  {
    hide CompletedPrefix;
    assert RunEvolves(j, j.runs[id], k.runs[id]);
  }

  /** Only a repair of the run, or the write of one of its advances, raises its cursor. */
  lemma RaisedBy(w: World, step: WorldStep, id: RequestId)
    requires Filed(w) && Permitted(step) && id in w.journal.runs
    requires id in Next(w, step).journal.runs && w.journal.runs[id].cursor < Next(w, step).journal.runs[id].cursor
    ensures step == Act(DoRepairCursor(id))
            || (step.WriteRow? && step.row in w.pending && step.row.id == id && step.row.cursor == Next(w, step).journal.runs[id].cursor)
  {
    hide Filed, Permitted, Apply, AdvancedRun, Keyed;
    if step.Act? && step != Act(DoRepairCursor(id)) {
      FiledKeyed(w);
      RaisingAction(w.journal, step.action, id);
    }
  }

  lemma FiledKeyed(w: World)
    requires Filed(w)
    ensures Keyed(w.journal)
  {
    hide HandoffRuns, RowsFiled, Contiguous, Requested, Bound, InOrder, Receipted, Witnessed, Leased, Halts, Retires, HandsOver, Quiet, Keyed;
  }

  lemma RaisingAction(j: Journal, action: Action, id: RequestId)
    requires Keyed(j) && Permitted(Act(action)) && id in j.runs && action != DoRepairCursor(id)
    ensures id in Apply(j, action).runs && Apply(j, action).runs[id] == j.runs[id]
  {
    hide Keyed, Admissible, TakeOver, CreateRun, RepairCursor;
    if action.DoTakeOver? {
      TakingSpares(j, action.proposed, action.snapshot, action.created, action.recovery, action.now, id);
    } else if action.DoCreateRun? {
      CreatingSpares(j, action.created, id);
    } else if action.DoRepairCursor? {
      RepairingSpares(j, action.run, id);
    } else {
      hide Apply;
      RunsUntouched(j, action);
    }
  }

  lemma TakingSpares(j: Journal, a: AttemptRecord, snapshot: AdmissionSnapshot, run: PlanRun, recovery: RecoveryTakeover, now: int, id: RequestId)
    requires Keyed(j) && id in j.runs
    ensures var k := After(j, TakeOver(j, a, snapshot, run, recovery, now)); id in k.runs && k.runs[id] == j.runs[id]
  {
    hide Keyed, TakeOver, RepeatedTakeOver, AdmissionContext, HeldBy, CheckSources;
    if TakeOver(j, a, snapshot, run, recovery, now).Ok? {
      if RepeatedTakeOver(j, a, recovery) {
        RepeatedTakeOverKeeps(j, a, snapshot, run, recovery, now);
      } else {
        TakeOverShape(j, a, snapshot, run, recovery, now);
      }
    }
  }

  lemma CreatingSpares(j: Journal, run: PlanRun, id: RequestId)
    requires id in j.runs
    ensures var k := After(j, CreateRun(j, run)); id in k.runs && k.runs[id] == j.runs[id]
  {
  }

  lemma RepairingSpares(j: Journal, run: RequestId, id: RequestId)
    requires id in j.runs && id != run
    ensures var k := After(j, RepairCursor(j, run)); id in k.runs && k.runs[id] == j.runs[id]
  {
    hide CompletedPrefix;
  }

  // ----- Why a write can lower a cursor -----

  /** Step `m` read run `row.id` and produced `row`. */
  predicate Produces(steps: seq<WorldStep>, m: nat, row: PlanRun) {
    && m < |steps| && steps[m].ReadRun? && steps[m].ticket.run == row.id
    && AdvancedRun(WorldAt(steps, m).journal, row.id, steps[m].ticket.index) == Ok(row)
  }

  lemma {:induction false} PendingWasRead(steps: seq<WorldStep>, n: nat, row: PlanRun) returns (m: nat)
    requires n <= |steps| && AllPermittedSteps(steps, n) && row in WorldAt(steps, n).pending
    ensures m < n && Produces(steps, m, row)
    decreases n
  {
    hide WorldAt, AdvancedRun, Next, Permitted, Filed;
    if n == 0 {
      StartIsEmpty(steps);
    } else {
      WorldStepped(steps, n - 1);
      if row in WorldAt(steps, n - 1).pending {
        m := PendingWasRead(steps, n - 1, row);
      } else {
        m := n - 1;
        AlwaysFiled(steps, n - 1);
        NewlyPending(WorldAt(steps, n - 1), steps[n - 1], row);
        ReadRowId(WorldAt(steps, n - 1), steps[n - 1].ticket, row);
      }
    }
  }

  lemma NewlyPending(w: World, step: WorldStep, row: PlanRun)
    requires row in Next(w, step).pending && row !in w.pending
    ensures step.ReadRun? && AdvancedRun(w.journal, step.ticket.run, step.ticket.index) == Ok(row)
  {
    hide AdvancedRun, Apply;
  }

  lemma ReadRowId(w: World, t: Ticket, row: PlanRun)
    requires Filed(w) && AdvancedRun(w.journal, t.run, t.index) == Ok(row)
    ensures row.id == t.run
  {
    hide Inv, HandoffRuns;
  }

  lemma StartIsEmpty(steps: seq<WorldStep>)
    ensures WorldAt(steps, 0) == START
  {
  }

  lemma WorldStepped(steps: seq<WorldStep>, n: nat)
    requires n < |steps|
    ensures WorldAt(steps, n + 1) == Next(WorldAt(steps, n), steps[n])
  {
    hide Next;
  }

  function CursorAt(steps: seq<WorldStep>, n: nat, id: RequestId): nat
    requires n <= |steps|
  {
    if id in WorldAt(steps, n).journal.runs then WorldAt(steps, n).journal.runs[id].cursor else 0
  }

  lemma RunStays(w: World, step: WorldStep, id: RequestId)
    requires Filed(w) && Permitted(step) && id in w.journal.runs
    ensures id in Next(w, step).journal.runs
  {
    hide Filed, Permitted, Apply, RunsEvolve, AdvancedRun;
    if step.Act? {
      ActFiles(w, step.action);
      NeverDown(w.journal, Apply(w.journal, step.action), id);
    }
  }

  /** A cursor that got above `c` crossed it at some step. */
  lemma {:induction false} Crossing(steps: seq<WorldStep>, m: nat, n: nat, id: RequestId, c: nat) returns (k: nat)
    requires m <= n <= |steps| && AllPermittedSteps(steps, n) && id in WorldAt(steps, m).journal.runs
    requires CursorAt(steps, m, id) <= c < CursorAt(steps, n, id)
    ensures m <= k < n && CursorAt(steps, k, id) <= c < CursorAt(steps, k + 1, id) && id in WorldAt(steps, k).journal.runs
    decreases n
  {
    hide WorldAt, Next, Permitted;
    if c < CursorAt(steps, n - 1, id) {
      k := Crossing(steps, m, n - 1, id, c);
    } else {
      k := n - 1;
      RunPersists(steps, m, n - 1, id);
    }
  }

  lemma {:induction false} RunPersists(steps: seq<WorldStep>, m: nat, n: nat, id: RequestId)
    requires m <= n <= |steps| && AllPermittedSteps(steps, n) && id in WorldAt(steps, m).journal.runs
    ensures id in WorldAt(steps, n).journal.runs
    decreases n
  {
    hide WorldAt, Next, Permitted, Filed;
    if m < n {
      RunPersists(steps, m, n - 1, id);
      AlwaysFiled(steps, n - 1);
      RunStays(WorldAt(steps, n - 1), steps[n - 1], id);
      WorldStepped(steps, n - 1);
    }
  }

  /** Step `k` took run `row.id` past `row`: a repair of that run, or the write of another, further advance of it. */
  predicate Overtakes(steps: seq<WorldStep>, k: nat, row: PlanRun) {
    && k < |steps| && CursorAt(steps, k, row.id) <= row.cursor < CursorAt(steps, k + 1, row.id)
    && (steps[k] == Act(DoRepairCursor(row.id))
        || (steps[k].WriteRow? && steps[k].row.id == row.id && row.cursor < steps[k].row.cursor))
  }

  /** A write that lowers a cursor was overtaken: between its read and the write, a repair of the same run or another
      advance of it committed. */
  lemma LoweredIsOvertaken(steps: seq<WorldStep>, n: nat, id: RequestId) returns (m: nat, k: nat)
    requires n < |steps| && AllPermittedSteps(steps, n + 1) && Lowers(WorldAt(steps, n), steps[n], id)
    ensures m < k < n && steps[n].WriteRow? && steps[n].row.id == id
    ensures Produces(steps, m, steps[n].row) && Overtakes(steps, k, steps[n].row)
  {
    hide WorldAt, Next, Permitted, Filed;
    AlwaysFiled(steps, n);
    LowersIff(WorldAt(steps, n), steps[n], id);
    var row := steps[n].row;
    m := PendingWasRead(steps, n, row);
    k := Crossing(steps, m, n, id, row.cursor);
    WorldStepped(steps, m);
    ReadsChangeNothing(WorldAt(steps, m), steps[m]);
    AlwaysFiled(steps, k);
    WorldStepped(steps, k);
    RaisedBy(WorldAt(steps, k), steps[k], id);
  }

  lemma ReadsChangeNothing(w: World, step: WorldStep)
    requires step.ReadRun?
    ensures Next(w, step).journal == w.journal
  {
  }
}
