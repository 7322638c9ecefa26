/** Run cursors: advancing reads and writes under separate locks, so writes may land late and repeatedly. */
module Cursors {
  import opened Wrappers
  import opened Domain
  import opened Journal
  import opened Actions
  import opened Invariant
  import opened Preservation
  import opened Admitting
  import opened Evolution
  import opened Histories

  /** What a worker holds: the run it advances, the attempt it executed, and that attempt's position. */
  datatype Ticket = Ticket(run: RequestId, attempt: AttemptId, index: nat)

  /** The journal, and the run rows that cursor advances have read and may still write. */
  datatype World = World(journal: Journal, pending: set<PlanRun>)

  const START := World(EMPTY, {})

  datatype WorldStep =
    | Act(action: Action)
    | ReadRun(ticket: Ticket)
    | WriteRow(row: PlanRun)

  /** A worker advances only after its own attempt completed. A crash drops every unwritten row. */
  function Next(w: World, step: WorldStep): World {
    match step
    case Act(action) => World(Apply(w.journal, action), if action.DoReopen? then {} else w.pending)
    case ReadRun(t) =>
      var row := AdvancedRun(w.journal, t.run, t.index);
      if t.attempt in w.journal.attempts && w.journal.attempts[t.attempt].state == Completed && row.Ok?
      then w.(pending := w.pending + {row.value})
      else w
    case WriteRow(row) => if row in w.pending then w.(journal := WriteRun(w.journal, row)) else w
  }

  /** Runs are created with cursor zero, and rows are written only by advances. */
  predicate Permitted(step: WorldStep) {
    match step
    case Act(action) => Admissible(action) && !action.DoWriteRun? && (action.DoCreateRun? ==> action.created.cursor == 0)
    case _ => true
  }

  predicate Matches(j: Journal, t: Ticket) {
    t.run in j.runs && t.index < |j.runs[t.run].steps| && j.runs[t.run].steps[t.index].0 == t.attempt
  }

  predicate Bounded(attempts: map<AttemptId, AttemptRecord>, run: PlanRun) {
    run.cursor <= CompletedPrefix(attempts, run.steps)
  }

  predicate CompletedAt(attempts: map<AttemptId, AttemptRecord>, steps: seq<(AttemptId, RequestId)>, i: nat) {
    i < |steps| && steps[i].0 in attempts && attempts[steps[i].0].state == Completed
  }

  // ----- The completed prefix -----

  /** The prefix is the longest one: everything in it is completed and the step after it is not. */
  lemma {:induction false} PrefixIsLongest(attempts: map<AttemptId, AttemptRecord>, steps: seq<(AttemptId, RequestId)>)
    ensures forall i | 0 <= i < CompletedPrefix(attempts, steps) :: CompletedAt(attempts, steps, i)
    ensures !CompletedAt(attempts, steps, CompletedPrefix(attempts, steps))
    decreases |steps|
  {
    if CompletedAt(attempts, steps, 0) {
      PrefixIsLongest(attempts, steps[1..]);
      forall i | 0 <= i < CompletedPrefix(attempts, steps)
        ensures CompletedAt(attempts, steps, i)
      {
        assert i > 0 ==> CompletedAt(attempts, steps[1..], i - 1);
      }
    }
  }

  lemma PrefixGrows(a: map<AttemptId, AttemptRecord>, b: map<AttemptId, AttemptRecord>, steps: seq<(AttemptId, RequestId)>)
    requires forall id | id in a && a[id].state == Completed :: id in b && b[id].state == Completed
    ensures CompletedPrefix(a, steps) <= CompletedPrefix(b, steps)
  {
    PrefixIsLongest(a, steps);
    PrefixIsLongest(b, steps);
    if CompletedPrefix(b, steps) < CompletedPrefix(a, steps) {
      assert CompletedAt(a, steps, CompletedPrefix(b, steps));
    }
  }

  /** Advancing a bounded run keeps the bound exactly when the run's own step at the cursor is completed. */
  lemma AdvanceKeepsBoundIff(j: Journal, id: RequestId)
    requires id in j.runs && Bounded(j.attempts, j.runs[id])
    ensures AdvancedRun(j, id, j.runs[id].cursor).Ok?
    ensures Bounded(j.attempts, AdvancedRun(j, id, j.runs[id].cursor).value)
            <==> CompletedAt(j.attempts, j.runs[id].steps, j.runs[id].cursor)
  {
    var run := j.runs[id];
    PrefixIsLongest(j.attempts, run.steps);
    if run.cursor < CompletedPrefix(j.attempts, run.steps) {
      assert CompletedAt(j.attempts, run.steps, run.cursor);
    }
  }

  /** Repairing a bounded run makes its cursor exactly the length of its completed prefix. */
  lemma RepairIsExact(j: Journal, id: RequestId)
    requires id in j.runs && Bounded(j.attempts, j.runs[id])
    ensures RepairCursor(j, id).Ok?
    ensures var run := RepairCursor(j, id).value.value;
            run == j.runs[id].(cursor := CompletedPrefix(j.attempts, j.runs[id].steps))
            && RepairCursor(j, id).value.journal == j.(runs := j.runs[id := run])
  {
  }

  // ----- The world invariant -----

  ghost predicate RowsFit(w: World) {
    && (forall id | id in w.journal.runs :: w.journal.runs[id].id == id && Bounded(w.journal.attempts, w.journal.runs[id]))
    && (forall row | row in w.pending ::
          row.id in w.journal.runs && row.steps == w.journal.runs[row.id].steps && Bounded(w.journal.attempts, row))
  }

  /** Each takeover's run starts with the attempt the takeover names. */
  ghost predicate HandoffRuns(j: Journal) {
    forall t | t in j.takeovers :: t.run in j.runs && j.runs[t.run].steps != [] && j.runs[t.run].steps[0].0 == t.firstAttempt
  }

  ghost predicate WorldFits(w: World) {
    Inv(w.journal) && RowsFit(w) && HandoffRuns(w.journal)
  }

  // ----- What actions do to runs -----

  /** Rows keep their identity and steps; a cursor moves only up, by repair; new rows start at zero. */
  ghost predicate RunsEvolve(j: Journal, k: Journal) {
    && (forall id | id in j.runs :: id in k.runs && RunEvolves(j, j.runs[id], k.runs[id]))
    && (forall id | id in k.runs && id !in j.runs :: k.runs[id].id == id && k.runs[id].cursor == 0)
  }

  ghost predicate RunEvolves(j: Journal, a: PlanRun, b: PlanRun) {
    b == a || (a.cursor < CompletedPrefix(j.attempts, a.steps) && b == a.(cursor := CompletedPrefix(j.attempts, a.steps)))
  }

  ghost predicate SameRuns(j: Journal, k: Journal) {
    k.runs == j.runs && k.takeovers == j.takeovers
  }

  lemma ReservingRuns(j: Journal, a: AttemptRecord, snapshot: AdmissionSnapshot, now: int)
    requires Keyed(j)
    ensures SameRuns(j, After(j, Reserve(j, a, snapshot, now)))
  {
    hide Keyed, Reserve, AttemptForRequest, AdmissionContext, Available, NextIndex;
    if Reserve(j, a, snapshot, now).Ok? {
      if AttemptForRequest(j, a.request).Some? {
        RepeatedReserve(j, a, snapshot, now);
      } else {
        ReserveShape(j, a, snapshot, now);
      }
    }
  }

  lemma WitnessRuns(j: Journal, action: Action)
    requires action.DoClaimReconciliation? || action.DoFinishReconciliation?
    ensures SameRuns(j, Apply(j, action))
  {
    hide ActiveGrant, BoundContext, OwnsAll, ReleaseFrom, FinalStep, ConfigurationAuthority, ConfigurationCharge, ActivelyReconciled, NextOrdinal;
  }

  lemma SettlingRuns(j: Journal, action: Action)
    requires action.DoClaimDispatch? || action.DoRecordReceipt? || action.DoRejectIntent? || action.DoAbandon? || action.DoReopen?
    ensures SameRuns(j, Apply(j, action))
  {
    hide SameRuns, Apply;
    if action.DoAbandon? || action.DoReopen? { ClosingRuns(j, action); } else { AttemptRuns(j, action); }
  }

  lemma ClosingRuns(j: Journal, action: Action)
    requires action.DoAbandon? || action.DoReopen?
    ensures SameRuns(j, Apply(j, action))
  {
    hide RejectIntentsOf, LeaseKeys, Destinations, ReleaseFrom;
  }

  lemma AttemptRuns(j: Journal, action: Action)
    requires action.DoClaimDispatch? || action.DoRecordReceipt? || action.DoRejectIntent?
    ensures SameRuns(j, Apply(j, action))
  {
    hide ActiveGrant, BoundContext, OwnsAll, ReleaseOnOutcome, SupervisorReleases;
  }

  lemma RecordRuns(j: Journal, action: Action)
    requires action.DoSaveProfile? || action.DoSaveGrant? || action.DoSavePlan? || action.DoRevokeGrant?
    ensures SameRuns(j, Apply(j, action))
  {
  }

  lemma RunsUntouched(j: Journal, action: Action)
    requires Keyed(j) && !action.DoCreateRun? && !action.DoTakeOver? && !action.DoRepairCursor? && !action.DoWriteRun?
    ensures SameRuns(j, Apply(j, action))
  {
    hide SameRuns, Keyed, Reserve, After;
    if action.DoReserve? {
      ReservingRuns(j, action.proposed, action.snapshot, action.now);
    } else {
      hide Apply;
      if action.DoClaimReconciliation? || action.DoFinishReconciliation? {
        WitnessRuns(j, action);
      } else if action.DoSaveProfile? || action.DoSaveGrant? || action.DoSavePlan? || action.DoRevokeGrant? {
        RecordRuns(j, action);
      } else {
        SettlingRuns(j, action);
      }
    }
  }

  lemma TakingRuns(j: Journal, a: AttemptRecord, snapshot: AdmissionSnapshot, run: PlanRun, recovery: RecoveryTakeover, now: int)
    requires Keyed(j) && Handoff(a, run, recovery) && HandoffRuns(j)
    requires forall id | id in j.runs :: j.runs[id].id == id
    ensures RunsEvolve(j, After(j, TakeOver(j, a, snapshot, run, recovery, now)))
    ensures HandoffRuns(After(j, TakeOver(j, a, snapshot, run, recovery, now)))
  {
    hide Keyed, TakeOver, RepeatedTakeOver, AdmissionContext, HeldBy, CheckSources, CompletedPrefix;
    if TakeOver(j, a, snapshot, run, recovery, now).Ok? {
      if RepeatedTakeOver(j, a, recovery) {
        RepeatedTakeOverKeeps(j, a, snapshot, run, recovery, now);
      } else {
        TakeOverShape(j, a, snapshot, run, recovery, now);
      }
    }
  }

  /** Every permitted action lets runs evolve, and keeps each takeover's run starting at its first attempt. */
  lemma RunsStep(j: Journal, action: Action)
    requires Keyed(j) && Permitted(Act(action)) && HandoffRuns(j)
    requires forall id | id in j.runs :: j.runs[id].id == id
    ensures RunsEvolve(j, Apply(j, action)) && HandoffRuns(Apply(j, action))
  {
    hide TakeOver, After, Proposal, RunsEvolve, HandoffRuns, Keyed, CreateRun, RepairCursor, SameRuns;
    if action.DoTakeOver? {
      TakingRuns(j, action.proposed, action.snapshot, action.created, action.recovery, action.now);
    } else if action.DoCreateRun? {
      CreatingRuns(j, action.created);
    } else if action.DoRepairCursor? {
      RepairingRuns(j, action.run);
    } else {
      hide Apply;
      RunsUntouched(j, action);
      SameRunsEvolve(j, Apply(j, action));
    }
  }

  lemma CreatingRuns(j: Journal, run: PlanRun)
    requires run.cursor == 0 && HandoffRuns(j) && forall id | id in j.runs :: j.runs[id].id == id
    ensures RunsEvolve(j, After(j, CreateRun(j, run))) && HandoffRuns(After(j, CreateRun(j, run)))
  {
    hide CompletedPrefix;
  }

  lemma RepairingRuns(j: Journal, id: RequestId)
    requires HandoffRuns(j) && forall x | x in j.runs :: j.runs[x].id == x
    ensures RunsEvolve(j, After(j, RepairCursor(j, id))) && HandoffRuns(After(j, RepairCursor(j, id)))
  {
    hide CompletedPrefix;
  }

  lemma SameRunsEvolve(j: Journal, k: Journal)
    requires SameRuns(j, k) && HandoffRuns(j)
    ensures RunsEvolve(j, k) && HandoffRuns(k)
  {
    hide CompletedPrefix;
  }

  lemma RunsStayBounded(j: Journal, k: Journal)
    requires RunsEvolve(j, k) && AttemptsEvolve(j, k)
    requires forall id | id in j.runs :: Bounded(j.attempts, j.runs[id])
    ensures forall id | id in k.runs :: Bounded(k.attempts, k.runs[id])
  {
    CompletionsStay(j, k);
    forall id | id in k.runs
      ensures Bounded(k.attempts, k.runs[id])
    {
      if id in j.runs {
        assert RunEvolves(j, j.runs[id], k.runs[id]);
        PrefixGrows(j.attempts, k.attempts, k.runs[id].steps);
      }
    }
  }

  lemma CompletionsStay(j: Journal, k: Journal)
    requires AttemptsEvolve(j, k)
    ensures forall id | id in j.attempts && j.attempts[id].state == Completed :: id in k.attempts && k.attempts[id].state == Completed
  {
    forall id | id in j.attempts && j.attempts[id].state == Completed
      ensures id in k.attempts && k.attempts[id].state == Completed
    {
      assert AttemptEvolves(j.attempts[id], k.attempts[id]);
    }
  }

  lemma RowsStayBounded(j: Journal, k: Journal, row: PlanRun)
    requires RunsEvolve(j, k) && AttemptsEvolve(j, k) && row.id in j.runs && row.steps == j.runs[row.id].steps && Bounded(j.attempts, row)
    ensures row.id in k.runs && row.steps == k.runs[row.id].steps && Bounded(k.attempts, row)
  {
    assert RunEvolves(j, j.runs[row.id], k.runs[row.id]);
    CompletionsStay(j, k);
    PrefixGrows(j.attempts, k.attempts, row.steps);
    hide AttemptsEvolve, CompletedPrefix;
  }

  lemma ActRows(j: Journal, k: Journal, pending: set<PlanRun>)
    requires RowsFit(World(j, pending)) && RunsEvolve(j, k) && AttemptsEvolve(j, k)
    ensures RowsFit(World(k, pending)) && RowsFit(World(k, {}))
  {
    hide RunsEvolve, AttemptsEvolve, Bounded;
    RunsStayBounded(j, k);
    forall row | row in pending
      ensures row.id in k.runs && row.steps == k.runs[row.id].steps && Bounded(k.attempts, row)
    {
      RowsStayBounded(j, k, row);
    }
    RunsKeyed(j, k);
  }

  lemma InvKeyed(j: Journal)
    requires Inv(j)
    ensures Keyed(j)
  {
  }

  lemma ActKeeps(w: World, action: Action)
    requires WorldFits(w) && Permitted(Act(action))
    ensures WorldFits(Next(w, Act(action)))
  {
    var k := Apply(w.journal, action);
    assert forall id | id in w.journal.runs :: w.journal.runs[id].id == id;
    hide Inv, Apply, Keyed, RunsEvolve, AttemptsEvolve, StepsEvolve, RecordsEvolve, WitnessesEvolve, ClosuresEvolve, Admissible, HandoffRuns, RowsFit;
    InvKeyed(w.journal);
    StepKeepsAndEvolves(w.journal, action);
    RunsStep(w.journal, action);
    ActRows(w.journal, k, w.pending);
  }

  lemma RunsKeyed(j: Journal, k: Journal)
    requires RunsEvolve(j, k) && forall id | id in j.runs :: j.runs[id].id == id
    ensures forall id | id in k.runs :: k.runs[id].id == id
  {
    hide CompletedPrefix;
    forall id | id in k.runs
      ensures k.runs[id].id == id
    {
      assert id in j.runs ==> RunEvolves(j, j.runs[id], k.runs[id]);
    }
  }

  /** A matched ticket advances its run within the completed prefix. */
  lemma ReadKeeps(w: World, t: Ticket)
    requires WorldFits(w) && Matches(w.journal, t)
    ensures WorldFits(Next(w, ReadRun(t)))
  {
    hide Inv, HandoffRuns, CompletedPrefix;
    if w.journal.runs[t.run].cursor == t.index {
      AdvanceKeepsBoundIff(w.journal, t.run);
    }
  }

  lemma WriteKeeps(w: World, row: PlanRun)
    requires WorldFits(w)
    ensures WorldFits(Next(w, WriteRow(row)))
  {
    hide Inv, HandoffRuns, Bounded;
    if row in w.pending {
      var k := WriteRun(w.journal, row);
      StepKeepsAndEvolves(w.journal, DoWriteRun(row));
      assert HandoffRuns(k) by { WriteKeepsHandoffs(w.journal, row); }
    }
  }

  lemma WriteKeepsHandoffs(j: Journal, row: PlanRun)
    requires HandoffRuns(j) && row.id in j.runs && row.steps == j.runs[row.id].steps
    ensures HandoffRuns(WriteRun(j, row))
  {
  }

  // ----- Histories of the world -----

  function WorldAt(steps: seq<WorldStep>, n: nat): World
    requires n <= |steps|
  {
    if n == 0 then START else Next(WorldAt(steps, n - 1), steps[n - 1])
  }

  /** A ticket used by step `n` matched its run when it was issued, at some earlier point. */
  ghost predicate WellIssued(steps: seq<WorldStep>, n: nat)
    requires n < |steps|
  {
    steps[n].ReadRun? ==> exists m: nat | m <= n :: Matches(WorldAt(steps, m).journal, steps[n].ticket)
  }

  ghost predicate WellFormed(steps: seq<WorldStep>, n: nat)
    requires n <= |steps|
  {
    forall i | 0 <= i < n :: Permitted(steps[i]) && WellIssued(steps, i)
  }

  lemma StepsStayInRuns(j: Journal, k: Journal, t: Ticket)
    requires RunsEvolve(j, k) && Matches(j, t)
    ensures Matches(k, t)
  {
    hide CompletedPrefix;
    assert RunEvolves(j, j.runs[t.run], k.runs[t.run]);
  }

  lemma MatchStays(w: World, step: WorldStep, t: Ticket)
    requires WorldFits(w) && Permitted(step) && Matches(w.journal, t)
    ensures Matches(Next(w, step).journal, t)
  {
    hide Inv, Bounded, Apply, Keyed, RunsEvolve, Admissible;
    InvKeyed(w.journal);
    if step.Act? {
      RunsStep(w.journal, step.action);
      StepsStayInRuns(w.journal, Apply(w.journal, step.action), t);
    }
  }

  lemma {:induction false} MatchesLater(steps: seq<WorldStep>, m: nat, n: nat, t: Ticket)
    requires m <= n <= |steps| && WellFormed(steps, n) && Matches(WorldAt(steps, m).journal, t)
    ensures Matches(WorldAt(steps, n).journal, t)
    decreases n, 0
  {
    hide WorldFits, Next, Permitted, Matches;
    if m < n {
      MatchesLater(steps, m, n - 1, t);
      WorldsFit(steps, n - 1);
      MatchStays(WorldAt(steps, n - 1), steps[n - 1], t);
    }
  }

  lemma {:induction false} WorldsFit(steps: seq<WorldStep>, n: nat)
    requires n <= |steps| && WellFormed(steps, n)
    ensures WorldFits(WorldAt(steps, n))
    decreases n, 1
  {
    hide WorldFits, Next, Permitted, Matches, Inv;
    if n == 0 {
      StartFits();
    } else {
      WorldsFit(steps, n - 1);
      assert WellIssued(steps, n - 1);
      match steps[n - 1] {
        case Act(action) => ActKeeps(WorldAt(steps, n - 1), action);
        case ReadRun(t) =>
          var m: nat :| m <= n - 1 && Matches(WorldAt(steps, m).journal, t);
          MatchesLater(steps, m, n - 1, t);
          ReadKeeps(WorldAt(steps, n - 1), t);
        case WriteRow(row) => WriteKeeps(WorldAt(steps, n - 1), row);
      }
    }
  }

  lemma StartFits()
    ensures WorldFits(START)
  {
    hide Inv;
    EmptyInv();
  }

  /** Whenever every ticket matched its run when issued, no cursor ever exceeds its run's completed prefix: not
      with torn, late or repeated row writes, not with crashes, in any interleaving. */
  lemma CursorsAreBounded(steps: seq<WorldStep>, n: nat, id: RequestId)
    requires n <= |steps| && WellFormed(steps, n) && id in WorldAt(steps, n).journal.runs
    ensures var j := WorldAt(steps, n).journal;
            && (forall i | 0 <= i < j.runs[id].cursor :: CompletedAt(j.attempts, j.runs[id].steps, i))
            && RepairCursor(j, id).Ok? && RepairCursor(j, id).value.value.cursor == CompletedPrefix(j.attempts, j.runs[id].steps)
  {
    hide Inv, CompletedPrefix, WorldAt;
    WorldsFit(steps, n);
    var j := WorldAt(steps, n).journal;
    PrefixIsLongest(j.attempts, j.runs[id].steps);
    RepairIsExact(j, id);
  }

  // ----- Which takeover tickets match -----

  /** The attempt named by the ticket that a takeover call returns. */
  function TakeoverTicket(run: PlanRun, outcome: ReservationOutcome): Ticket {
    Ticket(run.id, outcome.attempt.id, 0)
  }

  lemma FoundTakeover(takeovers: seq<RecoveryTakeover>, request: RequestId)
    requires FindTakeover(takeovers, request).Some?
    ensures FindTakeover(takeovers, request).value in takeovers
  {
  }

  /** The ticket of a new or repeated takeover always matches its run. The ticket of a call that only repeats an
      earlier reservation's request matches exactly when the named run already starts with that attempt. */
  lemma TakeoverTicketMatchesIff(j: Journal, a: AttemptRecord, snapshot: AdmissionSnapshot, run: PlanRun, recovery: RecoveryTakeover, now: int)
    requires Keyed(j) && Contiguous(j) && HandoffRuns(j) && Handoff(a, run, recovery) && TakeOver(j, a, snapshot, run, recovery, now).Ok?
    ensures var tx := TakeOver(j, a, snapshot, run, recovery, now).value;
            Matches(tx.journal, TakeoverTicket(run, tx.value)) <==>
            !RepeatedTakeOver(j, a, recovery) || FindTakeover(j.takeovers, recovery.request).Some?
            || (run.id in j.runs && j.runs[run.id].steps != [] && j.runs[run.id].steps[0].0 == a.id)
  {
    if RepeatedTakeOver(j, a, recovery) {
      RepeatedTicket(j, a, snapshot, run, recovery, now);
    } else {
      hide Keyed, Contiguous, HandoffRuns, TakeOver, RepeatedTakeOver, AdmissionContext, HeldBy, CheckSources;
      TakeOverShape(j, a, snapshot, run, recovery, now);
    }
  }

  lemma RepeatedTicket(j: Journal, a: AttemptRecord, snapshot: AdmissionSnapshot, run: PlanRun, recovery: RecoveryTakeover, now: int)
    requires Contiguous(j) && HandoffRuns(j) && Handoff(a, run, recovery) && RepeatedTakeOver(j, a, recovery)
    requires TakeOver(j, a, snapshot, run, recovery, now).Ok?
    ensures var tx := TakeOver(j, a, snapshot, run, recovery, now).value;
            && tx.journal == j && tx.value.Existing? && tx.value.attempt.id == a.id
            && (FindTakeover(j.takeovers, recovery.request).Some? ==>
                  run.id in j.runs && j.runs[run.id].steps != [] && j.runs[run.id].steps[0].0 == a.id)
  {
    hide AdmissionContext, CheckSources, HeldBy, Available, LeaseTo, InsertAttempt;
    if FindTakeover(j.takeovers, recovery.request).Some? {
      FoundTakeover(j.takeovers, recovery.request);
      AttemptKey(j, recovery.firstAttempt);
    }
    hide Contiguous;
  }
}
