# Authority journal and instrument protocols: a verified model

This project models, and proves properties of, the parts of cheirismos that decide whether a physical
effect may happen and that carry it out:

- **The authority journal** (`Domain`, `Journal`, `Actions`, `Store`). Grants, plans, runs, attempts, leases,
  reconciliations, takeovers, retirements and abandonments are tables of one value, `Journal.Journal`. Every
  store method is one atomic transaction, written as a function that commits a new journal or fails.
  `Store.SqliteStore` is the store as an object: its methods stage their updates, loop over resources,
  sources and rows as the program does, and commit or return early; each is proved against its transaction.
- **Any interleaving** (`Actions`, `Invariant`, `Preservation`, `Reconciling`, `Closing`, `Admitting`,
  `Evolution`, `Histories`). A history is any sequence of admissible supervisor actions, including crashes
  with reopening and torn run-row writes. One global invariant is kept by every action; the safety results are
  statements about every reachable journal or about two points of one history.
- **What each transaction does** (`Enabling`, `Entering`, `Recovering`, `Enacting`): over reachable journals, exactly when
  it succeeds and exactly what it changes, told from the tables alone; what revocations and crashes leave behind; and
  that uncertain pairs can always be recovered.
- **What a grant allows** (`Authority`, `Permissions`): the authorization decision, and that nothing outside it is ever recorded or dispatched.
- **What follows over whole histories**: lease ownership and uncertainty (`Histories`), interlock isolation
  (`Isolation`, `Guarding`), reconciliation records (`Witnessing`), budget conservation (`Budgets`, `Spending`), and run
  cursors (`Cursors`, `Overshoot`, `Regression`, `Backwards`).
- **The supervisor** (`Supervisor`, `Threads`, `Excuses`, `Interlocks`, `Conditions`). Its methods drive the store while any other
  threads run between any two store calls. A ghost log is proved to be an admissible history, so the history
  theorems apply to it.
- **Instruments**: SPI-NOR planning and a device model (`Flash`, `NorDevice`), bus execution (`Bus`, `FlashBus`, `FlashOperations`),
  the simulator (`Simulator`), COBS framing (`Cobs`), and firmware comparison and patching (`Firmware`).

`dafny verify dfyconfig.toml` checks the whole project with Dafny 4.11.

## Reading the model

- SHA-256 digests are taken as injective: `Sha256(content)` is its content under a constructor.
- The store trusts its `release_lease` argument, and does not bound an operation index by the plan; the
  supervisor does both. `Actions.Admissible` and the functions beside it state exactly what the supervisor
  passes, and `Supervisor` proves that its methods pass it whatever other threads do meanwhile.
- Times are integers read at each step, in milliseconds; nothing is assumed about them between steps.
- A machine word is 64 bits.

## Where the code differs from what one would expect

- **Run cursors can pass the completed prefix.** The code documents a cursor as something
  that lags completed receipts (`src/store/mod.rs:539-540`). A takeover call whose request repeats an ordinary reservation returns the
  existing attempt without creating a run (`src/store/mod.rs:824-836`), and the supervisor then issues a ticket
  for the run named in the call (`src/supervisor/mod.rs:674-687`), which may be an unrelated one. Executing that
  ticket advances the unrelated run. `Overshoot.CursorOvershoots` is such a history, of permitted operations only;
  `Cursors.TakeoverTicketMatchesIff` and `Cursors.AdvanceKeepsBoundIff` say exactly when it cannot happen, and
  `Cursors.CursorsAreBounded` proves the bound for all other tickets.
- **A cursor may also move backwards**, because an advance reads and writes under two locks (`src/store/mod.rs:518-537`).
  `Backwards.CursorMovesBack` is a history with matched tickets in which a late write takes a cursor from 2 to 1.
  `Regression.LowersIff` says exactly which steps lower a cursor, and `Regression.LoweredIsOvertaken` why: a repair or
  another advance of the run committed between the read and the write. The bound holds anyway.
- **Enabling writes does not wait.** `write_enable` tests the latch bit of the status register and not its busy bit
  (`src/service/backend/bus.rs:800-813`), and a busy device keeps the latch set. A write or erase that begins while
  the device is busy therefore succeeds without its first page or sector (`FlashBus.BusyPassesTheTest`), which shows
  exactly when that piece was not there already (`FlashBus.DroppedPieceShows`). The identity check before every
  operation rules this out, unless the commissioned identity is all ones (`FlashOperations.WriteOperation`).

## Model

| member | source | states |
|---|---|---|
| `Evolution.StepKeepsAndEvolves` | src/store/mod.rs:604-1510 | every supervisor step, from any journal satisfying the global invariant, keeps the invariant and only moves the journal forward: rows are added, settled facts stay |
| `Histories.ReachableInv` | src/store/mod.rs:604-1705 | the invariant holds in every journal reachable by any interleaving of supervisor steps and crashes |
| `Admitting.ReserveKeeps` | src/store/mod.rs:604-792 | reserving a step keeps the invariant, whatever attempt and snapshot a supervisor proposes |
| `Admitting.TakeOverKeeps` | src/store/mod.rs:794-1025 | a recovery takeover keeps the invariant: leases move, sources retire, one fresh destination starts |
| `Preservation.ClaimDispatchKeeps` | src/store/mod.rs:1055-1175 | claiming a dispatch keeps the invariant |
| `Preservation.RecordReceiptKeeps` | src/store/mod.rs:1177-1209 | recording a receipt with the supervisor's release decision keeps the invariant, the lease table included |
| `Preservation.RejectIntentKeeps` | src/store/mod.rs:1211-1238 | rejecting an intent keeps the invariant, with inherited leases kept for a recovery destination |
| `Reconciling.ClaimReconciliationKeeps` | src/store/mod.rs:1244-1450 | opening a reconciliation witness keeps the invariant |
| `Reconciling.FinishReconciliationKeeps` | src/store/mod.rs:1454-1515 | finishing a witness keeps the invariant |
| `Closing.AbandonKeeps` | src/store/mod.rs:396-516 | abandoning a halted run keeps the invariant |
| `Closing.ReopenKeeps` | src/store/mod.rs:1660-1707 | crash recovery keeps the invariant |
| `Histories.LeasesFollowTheJournal` | src/store/mod.rs:747-766 | in every reachable journal a pair holds a resource if and only if its index-0 attempt leased it, the pair is neither halted nor retired, its last attempt has not completed the plan's final step, and a rejected last attempt is that of a recovery destination |
| `Histories.UncertaintyIsHeld` | src/store/mod.rs:912-1018 | while an attempt is dispatched, partial or unknown, all its resources are held by its own pair or, once that pair is retired, by the unretired end of its takeover chain, unless that end finished its plan; a pair has exactly one chain, and it never meets a pair twice |
| `Histories.ChainIsUnique` | src/store/mod.rs:975-982 | two complete takeover chains from one pair are equal, so the unretired end is unique |
| `Histories.ChainEnds` | src/store/mod.rs:975-982 | following retirements from any started pair ends, in strictly later takeovers, at an unretired pair over the same resources |
| `Histories.AtMostOneDispatch` | src/store/mod.rs:1069-1077 | over any history, crashes and repeated requests included, one (grant, plan, operation index) is claimed for dispatch at most once |
| `Histories.AttemptsOnlyAdvance` | src/store/mod.rs:1192-1198 | Completed and Rejected absorb, nothing returns to Intent or Dispatched, a written receipt stays, and the rest of an attempt row never changes |
| `Histories.RecordedSteps` | src/store/mod.rs:717-746 | the recorded indices of a pair are exactly 0..n, all but the last completed, all with one profile, plan digest and resource set |
| `Histories.ClosureIsExclusive` | src/store/mod.rs:425-436 | no pair is both halted and retired, and a closed pair owns no lease |
| `Histories.ClosureIsPermanent` | src/store/mod.rs:837-844 | closure, and its kind, is permanent |
| `Histories.ClosedPairsAreInert` | src/store/mod.rs:630-641 | a closed pair reserves no new step, is the destination of no new takeover, claims no dispatch and opens no reconciliation |
| `Histories.HeldBetween` | src/store/mod.rs:1131-1147 | between two dispatch claims of one pair the pair holds all its resources at every moment |
| `Histories.LivenessOnlyFades` | src/store/mod.rs:1199-1204 | a started pair that has lost its leases never holds them again |
| `Isolation.InterlockIsolation` | src/supervisor/interlocks.rs:29-46 | between the claim of the witnessing observation and the claim of the effect it gates, a claim of the same run has no effect permission and a claim of any other pair shares no leased resource, in any interleaving |
| `Guarding.AcceptedIsGuarded` | src/supervisor/interlocks.rs:86-124 | when an interlock accepts a witness for a claimed effect, an earlier claim of the same run dispatched exactly the witnessing step |
| `Guarding.BegunWasClaimed` | src/store/mod.rs:1069-1077 | an attempt in any state but Intent and Rejected was claimed for dispatch earlier in the history |
| `Threads.ExecutionIsIsolated` | src/supervisor/mod.rs:889-957 | for every backend call of `Execute` and every interlock gating it, the witnessing step was claimed earlier by the same run, and every claim in between is without effects or shares no resource |
| `Isolation.ReconciliationIsolation` | src/supervisor/interlocks.rs:67-133 | in that interval no other pair opens a reconciliation on a shared resource, and one opened by the same run is of the observed attempt or of a later step without effect permissions |
| `Isolation.ClaimsInOrder` | src/store/mod.rs:717-735 | within one pair later claims are of later steps |
| `Isolation.ClaimedOperation` | src/store/mod.rs:1100-1130 | every claim is of an operation of the stored plan, which stays as stored |
| `Witnessing.HistoryShape` | src/store/mod.rs:1402-1435 | an attempt's witnesses carry ordinals 0, 1, ... in order; only the last can be claimed, and then the attempt is Unknown, or completed, and then the attempt is Completed with that receipt |
| `Witnessing.WitnessIsListed` | src/store/mod.rs:1517-1533 | every stored witness is in its attempt's history at its ordinal |
| `Witnessing.FinishedWitnessesStay` | src/store/mod.rs:1472-1510 | a finished witness never changes; a claimed one keeps its identity |
| `Witnessing.CompletionStep` | src/store/mod.rs:1192-1198 | only a recorded receipt or a finished witness can complete an attempt, and only with a completion receipt |
| `Witnessing.ObservationIsTheCompletion` | src/supervisor/interlocks.rs:135-158 | from the step that completed an attempt on, the observation read for it is the one in the very receipt that completed it |
| `Witnessing.ObservationIsFixed` | src/supervisor/interlocks.rs:135-158 | readers at different times see the same observation of a completed attempt |
| `Spending.StepBalances` | src/store/mod.rs:767-778 | no step changes a grant's account: remaining plus reservations plus configuration charges |
| `Spending.BudgetIsConserved` | src/store/mod.rs:992-1003 | componentwise, a grant's initial budget is always its remaining budget plus every attempt's reservation plus every reconciliation's configuration charge; retries never charge twice and nothing is refunded |
| `Spending.DispatchesArePaidFor` | src/supervisor/mod.rs:407-418 | the summed worst-case cost of everything ever dispatched under a grant is at most the initial budget less what remains and what reconciliation was charged |
| `Spending.AlwaysFunded` | src/supervisor/mod.rs:620-628 | whole-plan reservations equal, exactly, the cost of recorded steps plus the cost of steps still to come |
| `Permissions.EveryAttemptIsPermitted` | src/supervisor/mod.rs:1451-1554 | over any interleaving, every attempt ever recorded is of an operation that the stored grant, commissioned profile and independent review permit |
| `Permissions.DispatchIsPermitted` | src/supervisor/mod.rs:1328-1339 | at every dispatch claim the grant is neither revoked nor expired, and the stored records permit the claimed operation then and ever after |
| `Permissions.TermsAreFixed` | src/store/mod.rs:142-179 | nothing of a grant ever changes but its remaining budget and, once and for all, its revocation |
| `Authority.Authorize` | src/supervisor/mod.rs:1451-1554 | accepts exactly an unrevoked grant and an operation that review, fixture, instruments, capabilities, effect permissions and limits permit; counting and comparing fingerprints one by one decides equality of the maps |
| `Authority.FlashStaysInRegion` | src/supervisor/mod.rs:1541-1548 | a permitted erase or write, run as planned on a device, leaves every byte outside the commissioned region unchanged |
| `Permissions.RevocationIsPermanent` | src/store/mod.rs:150-179 | a revoked grant stays revoked |
| `Permissions.RevokedGrantsAreInert` | src/store/mod.rs:1092-1094 | no dispatch or reconciliation is claimed under a revoked grant |
| `Enacting.RevokesExactly` | src/store/mod.rs:150-179 | revoking succeeds exactly for a stored grant, which is then revoked; no other grant or table changes |
| `Enacting.RevocationTakesEffect` | src/store/mod.rs:167-174 | from the revocation of a stored grant on, it is revoked at every later point of the history |
| `Enacting.NothingAfterRevocation` | src/store/mod.rs:1092-1094 | after the revocation no action claims a dispatch, records a new attempt or opens a witness under the grant |
| `Enacting.SavesExactly` | src/store/mod.rs:1614-1643 | an immutable record is stored when its id is new, found when identical, and refused otherwise; nothing else changes |
| `Enacting.CreatesExactly` | src/store/mod.rs:311-339 | a run is stored when its id is new and found at any cursor when it is the same run |
| `Enacting.ReopensExactly` | src/store/mod.rs:1660-1707 | each dispatched attempt becomes unknown with a receipt that observed nothing, each open witness becomes unknown, every other row and table is equal, and nothing is left in flight |
| `Enacting.NothingInFlightAfterReopen` | src/store/mod.rs:1672-1703 | in any history nothing is dispatched and no witness is open just after a crash recovery, and what was dispatched is unknown |
| `Enacting.InterruptedIsRecoverable` | src/store/mod.rs:912-1018 | what was dispatched at a crash can be recovered afterwards by a takeover that names it |
| `Enabling.ClaimsExactly` | src/store/mod.rs:1055-1175 | over reachable journals a dispatch is claimed exactly for an intent of an open pair under a usable grant of the agent; lease and digest checks are implied; only the attempt's state changes |
| `Enabling.RecordsExactly` | src/store/mod.rs:1177-1209 | a receipt is recorded exactly for a dispatched attempt; the pair loses all its leases exactly for a completion of the plan's last step or a rejection outside a recovery destination |
| `Enabling.RejectsExactly` | src/store/mod.rs:1211-1238 | an intent and only an intent is rejected; the pair loses all its leases exactly outside a recovery destination |
| `Enabling.OpensExactly` | src/store/mod.rs:1244-1400 | a witness for a new request is opened exactly for an uncertain attempt of an unretired pair without an open witness, under a usable grant, with a reviewed configuration allowed and affordable |
| `Enabling.OpeningChanges` | src/store/mod.rs:1387-1450 | it is appended at the next ordinal, the attempt becomes unknown, the grant pays a reviewed configuration, and nothing else changes |
| `Enabling.FinishesExactly` | src/store/mod.rs:1454-1515 | a witness is finished exactly while it is claimed; only a completion moves the attempt, and only after the plan's last step the pair loses its leases |
| `Enabling.AbandonsExactly` | src/store/mod.rs:396-489 | which new abandonments succeed, told from the tables |
| `Enabling.AbandonmentChanges` | src/store/mod.rs:470-516 | exactly the pair's intents are rejected, everything the pair holds is released, pair and run are closed, nothing else changes |
| `Enabling.ClosingsRepeat` | src/store/mod.rs:1255-1275 | a repeated reconciliation or abandonment request finds the same one and changes nothing, or conflicts |
| `Entering.ReservesExactly` | src/store/mod.rs:604-792 | which new reservations succeed: open pair, admitted, next step after completed ones, resources not held by another pair, affordable, new id; the check against the first step is implied |
| `Entering.ReservationChanges` | src/store/mod.rs:767-792 | the step is appended under its request, the pair holds the resources, the grant has paid, nothing else changes |
| `Entering.RepetitionsAreFound` | src/store/mod.rs:614-629 | a repeated request returns its attempt if it is the same step of the same plan, and changes nothing |
| `Recovering.TakesOverExactly` | src/store/mod.rs:794-1025 | which new takeovers succeed: fresh, admitted, affordable destination, every named attempt may hand over, and not all their pairs have finished their plans; holding the leases is implied |
| `Recovering.TakeoverChanges` | src/store/mod.rs:963-1025 | the destination holds the resources and has its step and run, exactly the named pairs are retired under the new takeover, the grant has paid, nothing else changes |
| `Recovering.UncertainIsRecoverable` | src/store/mod.rs:912-962 | a takeover naming a partial or unknown attempt of an unretired pair without an open witness of it always succeeds, given a fresh, admitted, affordable destination over the same resources; it retires exactly that pair and moves exactly its leases |
| `Recovering.CarrierIsRecoverable` | src/store/mod.rs:936-945 | so does one naming an intent, rejected or completed attempt of an unretired recovery destination at rest that has not finished its plan |
| `Recovering.TakeoverRepeats` | src/store/mod.rs:807-823 | a repeated takeover request returns its first attempt if it is the same in every respect, and changes nothing |
| `Recovering.TakeoverFindsReservation` | src/store/mod.rs:824-836 | a takeover that repeats a reservation's request returns that attempt if it is the same, and changes nothing |
| `Domain.PermissionsByEffect` | src/domain/mod.rs:422-461 | which operations need each effect permission |
| `Domain.EffectsAreCounted` | src/domain/mod.rs:463-484 | an operation without effects only looks or waits, and the budget counts its effect permissions, at most two |
| `Domain.Budget.CheckedSub` | src/domain/mod.rs:235-241 | subtraction succeeds exactly when every component fits, and is undone by adding |
| `Domain.CommissionedProfile.PhysicalResources` | src/domain/mod.rs:566-577 | the lease set always holds target and fixture |
| `Cursors.CursorsAreBounded` | src/store/mod.rs:518-573 | when every ticket matched its run when issued, no cursor exceeds its run's completed prefix and repair makes it equal to that prefix, with torn, late or repeated row writes and crashes in any interleaving |
| `Cursors.AdvanceKeepsBoundIff` | src/store/mod.rs:518-537 | advancing a bounded run keeps the bound if and only if the run's own step at the cursor is completed |
| `Cursors.TakeoverTicketMatchesIff` | src/store/mod.rs:807-836 | which tickets of takeover calls match their run, told from the journal before the call: all those of new and repeated takeovers, and those that repeat a reservation exactly when the named run starts with that attempt |
| `Overshoot.CursorOvershoots` | src/supervisor/mod.rs:668-689 | a concrete history in which a takeover call returns an existing attempt with an unrelated run, and executing that ticket leaves a cursor beyond the completed prefix |
| `Backwards.CursorMovesBack` | src/store/mod.rs:518-537 | a concrete history of permitted steps and matched tickets in which an advance, read before a repair and another advance, is written last and takes the cursor from 2 to 1 |
| `Regression.LowersIff` | src/store/mod.rs:518-537 | in every permitted history a step lowers a cursor if and only if it writes a row read earlier whose cursor is below the stored one; reads, repairs and every other action never do |
| `Regression.LoweredIsOvertaken` | src/store/mod.rs:518-573 | a lowering write was read before some repair of the same run, or the write of a further advance of it, took the stored cursor past it |
| `Regression.RaisedBy` | src/store/mod.rs:541-573 | only a repair of the run, or the write of one of its own advances, raises its cursor |
| `Cursors.RepairIsExact` | src/store/mod.rs:541-573 | repairing a bounded run sets its cursor to the length of its completed prefix |
| `Cursors.PrefixIsLongest` | src/store/mod.rs:555-561 | the counted prefix is the longest completed one |
| `Store.SqliteStore.Reserve` | src/store/mod.rs:604-792 | updates the tables to exactly the specified transaction, or fails and leaves them alone |
| `Store.SqliteStore.TakeoverRecovery` | src/store/mod.rs:794-1025 | updates the tables to exactly the specified takeover, or fails and leaves them alone |
| `Store.SqliteStore.ClaimDispatch` | src/store/mod.rs:1055-1175 | Intent becomes Dispatched exactly when every guard holds |
| `Store.SqliteStore.RecordReceipt` | src/store/mod.rs:1177-1209 | writes the receipt and its state once, releasing leases as asked except for a rejected destination |
| `Store.SqliteStore.RejectIntent` | src/store/mod.rs:1211-1238 | rejects an Intent and releases what it did not inherit |
| `Store.SqliteStore.ClaimReconciliation` | src/store/mod.rs:1244-1450 | opens, or finds, the one active witness of an uncertain attempt, charging the configuration budget |
| `Store.SqliteStore.FinishReconciliation` | src/store/mod.rs:1454-1515 | finishes a claimed witness; only a completion moves the attempt |
| `Store.SqliteStore.AbandonHaltedRun` | src/store/mod.rs:396-516 | rejects the remaining intents, releases exactly the pair's leases and closes pair and run |
| `Store.SqliteStore.CreateRun` | src/store/mod.rs:311-339 | inserts a run or finds the same one |
| `Store.SqliteStore.ReadRun` | src/store/mod.rs:518-531 | first half of an advance: the row to write, if the cursor is where the caller left it |
| `Store.SqliteStore.SaveRun` | src/store/mod.rs:1598-1612 | second half of an advance: the whole row is written unconditionally |
| `Store.SqliteStore.RepairRunCursor` | src/store/mod.rs:541-573 | raises a lagging cursor to the completed prefix and never lowers one |
| `Store.SqliteStore.RecoverInterruptedDispatches` | src/store/mod.rs:1660-1707 | every dispatched attempt and claimed witness becomes unknown, nothing else changes |
| `Store.SqliteStore.SaveGrant` | src/store/mod.rs:1614-1643 | inserts an immutable record or finds the identical one |
| `Store.SqliteStore.SaveProfile` | src/store/mod.rs:134-136 | inserts an immutable profile or finds the identical one |
| `Store.SqliteStore.SavePlan` | src/store/mod.rs:276-292 | inserts a reviewed plan or finds the identical one |
| `Store.SqliteStore.RevokeGrant` | src/store/mod.rs:150-179 | sets only the revoked flag |
| `Store.TornRecoveryResumes` | src/store/mod.rs:1660-1707 | recovery is not one transaction: after a crash at any point inside it, running it again gives the same journal; recovering twice changes nothing more |
| `Store.AcquireLeases` | src/store/mod.rs:747-766 | takes all resources, or fails when one is held by another pair |
| `Store.TransferLeases` | src/store/mod.rs:963-984 | moves all resources from the old owners, or fails when one is held by nobody among them |
| `Store.CheckUnresolved` | src/store/mod.rs:895-962 | checks the sources in order and collects their owners |
| `Store.ReleaseLeases` | src/store/mod.rs:1993-1998 | deletes exactly the rows still belonging to the owner |
| `Supervisor.Supervisor.Submit` | src/supervisor/mod.rs:358-459 | with arbitrary interference between its store calls, admits or finds exactly the requested step; a failure is due to missing records, another agent's grant, a refused authorization, a step off the plan, or the reservation itself |
| `Supervisor.Supervisor.Execute` | src/supervisor/mod.rs:889-957 | the backend is called only after this call's successful claim of a permitted operation and with every gating interlock fresh; its answer is recorded as judged by the stored postconditions, no answer as an unknown outcome; a denied dispatch is recorded as rejected, and only for a refused plan or an interlock not in time; a failure is that of the claim or of the record |
| `Supervisor.Supervisor.RecordNow` | src/supervisor/mod.rs:926-936 | records exactly this receipt as the last action; the release decision made from the claimed plan is the one the stored plan calls for, whatever happened since the claim |
| `Supervisor.Supervisor.Reconcile` | src/supervisor/mod.rs:1107-1279 | a call that opens the witness finishes it as its last action: the backend is asked unless a configuration is blocked, there is an outcome exactly for an answer that observed something and is no rejection, judged by the stored postconditions, and without an outcome the call fails and no attempt and no lease changes; a call that opens none fails only for a cause the log shows |
| `Threads.OpenedOnlyOnce` | src/supervisor/mod.rs:1176-1187 | a reconciliation request opens at most one witness over any history |
| `Supervisor.Supervisor.AdmitPlan` | src/supervisor/mod.rs:461-556 | the returned ticket is the requested one and matched its run when it was issued, its attempt is an intent, and the stored records permit every operation of the plan; a failure has a cause that the log or the outside shows |
| `Supervisor.Supervisor.ResumePlan` | src/supervisor/mod.rs:959-1044 | a returned ticket is for the first step not completed of the steps stored for the run when this call repaired it, and matched its run when issued; a failure means another agent's run, a closed, stuck or finished run, or a step that could not be submitted |
| `Supervisor.Supervisor.ExecuteNext` | src/supervisor/mod.rs:809-887 | the backend's answer is recorded as in one execution; after a completion the run was read after the executed attempt had completed and written back as an advance, the next ticket matches the run, and there is none only after the last step; a failure has a cause that the log shows |
| `Supervisor.Supervisor.TakeoverRecovery` | src/supervisor/mod.rs:562-689 | the last action is the takeover of exactly this call's run, request, sources, first attempt, grant and plan; the ticket is the requested one, and the stored records permit every operation of the plan; a failure has a cause that the log or the outside shows |
| `Supervisor.Supervisor.PreflightPlan` | src/supervisor/mod.rs:773-808 | passes exactly the plans whose gated steps all have witnessing steps and whose every operation is authorized, when everything outside accepts; an authorization refusal is that of some operation of the plan |
| `Threads.ClaimedIsAuthorized` | src/supervisor/mod.rs:1328-1339 | the authorization repeated between claim and dispatch cannot fail |
| `Threads.PlanBudget` | src/supervisor/mod.rs:410-417 | the checked fold gives the exact plan total, or nothing exactly when the total does not fit 64 bits |
| `Threads.StepIdentitiesAreDistinct` | src/supervisor/mod.rs:745-771 | derived step identities of a run never collide |
| `Threads.ReleaseIsStillRight` | src/supervisor/mod.rs:926-936 | release decision, configuration charge and finality of a step do not change while other threads run |
| `Interlocks.ObservationStep` | src/supervisor/interlocks.rs:29-46 | finds the witnessing step if and only if there is one |
| `Interlocks.WitnessIsUnique` | src/supervisor/interlocks.rs:29-46 | a gated step has at most one witnessing step |
| `Interlocks.ValidatePlan` | src/supervisor/interlocks.rs:12-27 | accepts exactly the plans in which every gated step has a witnessing step |
| `Interlocks.CheckInterlock` | src/supervisor/interlocks.rs:86-124 | accepts exactly a completed, fresh, satisfied witness of this reviewed run |
| `Interlocks.CheckLiveInterlocks` | src/supervisor/interlocks.rs:67-133 | succeeds exactly when every gating interlock has a fresh witness with a representable expiry, and returns the earliest expiry |
| `Interlocks.CheckPostconditions` | src/supervisor/interlocks.rs:48-64 | turns a completion that breaks a reviewed postcondition into a partial receipt with the same observation, and leaves every other receipt as it is |
| `Supervisor.Supervisor.ClearInterlocks` | src/supervisor/interlocks.rs:67-133 | clear exactly when every gating interlock has, at its reading of the clock, a fresh witness with a representable expiry |
| `Conditions.ValidateSegment` | src/conditions.rs:413-424 | accepts exactly the segments whose every tilde starts an escape |
| `Conditions.UnescapeIsDecode` | src/conditions.rs:426-429 | on every accepted segment the two sequential replacements are one left-to-right decode (sections 3 and 4 of RFC 6901) |
| `Conditions.TildesFirstIsWrong` | src/conditions.rs:428-428 | replacing in the other order decodes an accepted segment wrongly |
| `Conditions.TryNewPointer` | src/conditions.rs:26-44 | accepts exactly the well-formed pointers of at most 512 bytes |
| `Conditions.Resolve` | src/conditions.rs:52-84 | resolves step by step as specified |
| `Conditions.ResolveIsLookup` | src/conditions.rs:52-84 | escaping any key list and resolving the pointer is direct lookup with the plain keys |
| `Conditions.PointersAreDistinct` | src/conditions.rs:26-44 | distinct key lists have distinct pointers |
| `Conditions.ValidSegmentsResolve` | src/conditions.rs:52-84 | a validated pointer never fails as malformed when resolved |
| `Conditions.IndexDeviation` | src/conditions.rs:431-436 | array indices are read as the standard's grammar says, except exactly that a leading plus is also accepted |
| `Conditions.DecimalRoundTrip` | src/conditions.rs:431-436 | every array position a machine word can express is addressed by its decimal spelling |
| `Conditions.EvaluateChecks` | src/conditions.rs:377-386 | passes exactly when every check holds, and otherwise reports the first failing one |
| `Flash.TryNew` | src/instruments/flash.rs:92-122 | accepts exactly the valid geometries |
| `Flash.ForOperation` | src/instruments/flash.rs:203-330 | accepts exactly the requests that fit, with the specified commands |
| `Flash.AddressRoundTrip` | src/instruments/flash.rs:159-169 | every offset of a valid geometry is sent as an address that decodes back to it |
| `Flash.WritesArePaged` | src/instruments/flash.rs:262-314 | no program command crosses a page, each decodes into the request, and each is enabled and polled |
| `NorDevice.WriteRuns` | src/instruments/flash.rs:262-314 | running the page-split write plan on a device with latch, busy time, page wrap and AND-programming gives one flat splice |
| `NorDevice.EraseRuns` | src/instruments/flash.rs:221-261 | running the erase plan erases exactly the requested sectors |
| `NorDevice.ReadRuns` | src/instruments/flash.rs:207-220 | running the read plan returns exactly the requested range |
| `NorDevice.EraseWriteRead` | src/instruments/flash.rs:203-314 | erase, then write inside the erased region, then read returns the written bytes and leaves every byte outside the erased sectors unchanged, for every valid geometry, request and device timing |
| `NorDevice.ProgramIsSplice` | src/instruments/flash.rs:281-306 | a page program that stays in its page is a flat splice |
| `NorDevice.SpliceConcat` | src/instruments/flash.rs:281-314 | writing in pieces is writing at once |
| `Simulator.Simulator.WriteFlash` | src/instruments/simulator.rs:173-239 | refuses to raise a bit, programs exactly the prefix the injected fault permits, and on success the flash holds the requested bytes and is what every idle device ends up with after the page-split plan |
| `Simulator.Simulator.EraseFlash` | src/instruments/simulator.rs:142-171 | erases the range, or its first half when interrupted |
| `Simulator.Simulator.ReadFlash` | src/instruments/simulator.rs:130-140 | returns the range or a limit error |
| `Simulator.Simulator.InjectFault` | src/instruments/simulator.rs:102-105 | the fault waits for the next effect |
| `Simulator.Simulator.SetRelay` | src/instruments/simulator.rs:107-128 | changes one relay unless interrupted, and counts the effect |
| `Simulator.ProgramNor` | src/instruments/simulator.rs:270-274 | the in-place AND loop is the flat splice |
| `Simulator.SpliceIsPlan` | src/instruments/flash.rs:262-314 | a flat splice is what every idle device with the same memory ends up with after the page-split plan |
| `Bus.SpiTransfer` | src/service/backend/bus.rs:496-537 | makes exactly the requests of the exchange, returning the answered bytes in order; a failure stops at the failing request |
| `Bus.SpiExchange` | src/service/backend/bus.rs:496-537 | a nonempty exchange starts once, on its first request, and stops once, on its last; writes concatenate to tx, reads add up to rx, and every request respects the limits |
| `Bus.UartCapture` | src/service/backend/bus.rs:610-637 | a capture never exceeds the requested bytes or the evidence limit, and ends early only after a short answer |
| `Bus.FromDiscovery` | src/service/backend/bus.rs:475-486 | limits are positive and fit 16 bits |
| `FlashBus.FlashWrite` | src/service/backend/bus.rs:862-903 | success on an idle device leaves exactly what the page-split plan leaves, the flat splice of the whole request; on a busy one, the splice without the first piece; any failure leaves everything outside the range alone; every request respects the limits |
| `FlashBus.FlashErase` | src/service/backend/bus.rs:828-860 | success on an idle device erases exactly the request, as the erase plan does; on a busy one, all but the first sector; any failure leaves everything outside it alone |
| `FlashBus.FlashRead` | src/service/backend/bus.rs:751-798 | reading an idle device in pieces returns the range and changes nothing |
| `FlashBus.WriteEnable` | src/service/backend/bus.rs:800-813 | success means the device is enabled and idle if and only if it was idle before |
| `FlashBus.WaitBusyClear` | src/service/backend/bus.rs:815-826 | returns only when the device is idle |
| `FlashBus.PayloadLimit` | src/service/backend/bus.rs:905-917 | a positive payload exactly when the command leaves room |
| `FlashOperations.VerifyIdentity` | src/service/backend/bus.rs:698-730 | passing means the connected device has the commissioned identity and is idle, unless that identity is all ones |
| `FlashOperations.WriteOperation` | src/service/backend/bus.rs:283-322 | identity check, write and readback together: the device holds the flat splice of the whole candidate, whatever it was doing before, and the readback matches if and only if no bit had to be raised; a reconciliation changes nothing |
| `FlashOperations.EraseOperation` | src/service/backend/bus.rs:248-281 | identity check, erase and readback together: the whole range is erased and reads back blank; a reconciliation changes nothing |
| `FlashBus.BusyPassesTheTest` | src/service/backend/bus.rs:800-813 | a busy device passes the latch test and then ignores the program or erase |
| `FlashBus.DroppedPieceShows` | src/service/backend/bus.rs:862-903 | losing the first piece leaves the memory of the whole write exactly when programming that piece would have changed nothing |
| `FlashBus.DroppedSectorShows` | src/service/backend/bus.rs:828-860 | losing the first sector leaves the memory of the whole erase exactly when that sector was erased already |
| `Firmware.CompareImages` | src/firmware.rs:430-478 | reports the maximal differing runs in order, up to the limit, with exact counts; the run lengths sum to the changed bytes |
| `Firmware.BuildCandidate` | src/firmware.rs:492-582 | accepts exactly the acceptable inputs and then returns the patched image; a refusal names the digest, else a protected range, else the fault of the first faulty patch in sorted order |
| `Firmware.AdjacentIsEnough` | src/firmware.rs:534-545 | after sorting, comparing each patch with the one before it decides pairwise disjointness |
| `Firmware.OrderDoesNotMatter` | src/firmware.rs:516-568 | patch order matters neither for acceptance nor for the bytes |
| `Firmware.CandidateIsUnique` | src/firmware.rs:552-568 | the patched image is determined by the set of patches |
| `Firmware.ProtectedBytesStay` | src/firmware.rs:546-551 | protected bytes are preserved |
| `Firmware.DiffThenPatch` | src/firmware.rs:430-582 | patches cut from the right image at all changed ranges are accepted on the left image and yield exactly the right image |
| `Cobs.Encode` | src/instruments/cobs.rs:7-26 | the loop produces the specified frame |
| `Cobs.Decode` | src/instruments/cobs.rs:34-62 | decodes as specified; the length check inside the loop never fires |
| `Cobs.RoundTrip` | src/instruments/cobs.rs:7-62 | decoding an encoded payload without its delimiter gives the payload whenever the frame fits the limit |
| `Cobs.FrameShape` | src/instruments/cobs.rs:7-32 | zero occurs only as the last byte, and a frame is at most len + len/254 + 2 bytes |
| `Cobs.ReadDelimited` | src/instruments/cobs.rs:64-97 | reads one frame from a stream as specified and leaves the rest unread |
| `Cobs.ReadsEveryFrame` | src/instruments/cobs.rs:64-97 | reading a concatenation of frames recovers each payload in order |

## Left out

- SQLite, JSON encoding, file locks, poisoned mutexes, full disks and backups: transactions are atomic steps, tables are maps, and only committed states are observed.
- Preflight against instruments and artifacts, identifier syntax, principal roles and error texts: one-branch checks; whether artifacts resolve and backends accept is an argument of each call.
- Authority.Authorize: the review digest is left out, because the only writer of plans sets it to the digest that it is compared with.
- The evidence store and evidence envelopes: challenges, ordinals of evidence and artifact lookups are not in the records, and a backend receipt whose evidence does not bind counts as no answer.
- Timestamps of records, and sub-millisecond time. `revoked`, expiry and interlock freshness are modelled.
- Proposals and their review: a reviewed plan appears when it is stored, and candidate, tool and precondition digests are not part of it. Case facts are not modelled.
- `resume`, `execute_plan` and `abandon_halted_run` of the supervisor: thin wrappers over the calls that are modelled.
- The server, client, command line, credentials, configuration, USB probing, serial framing of FlatBuffers, I2C, video and relay protocols: plumbing or foreign devices.
- Saving the simulator's state to disk and reopening it; `inspect_image` and its identification strings.
- Supervisor.Supervisor.Execute: all witnesses of one interlock check are read from one journal; `Witnessing.ObservationIsFixed` shows that later reads of a completed witness agree.
- Interlocks.CheckLiveInterlocks: re-validation of an interlock that was validated when it was constructed, and overflow of 64-bit millisecond sums, which the range of representable timestamps already bounds.
- Isolation.InterlockIsolation: speaks of dispatch claims; of the reconciliations opened by the same run in the interval, `Isolation.ReconciliationIsolation` says only which steps they can be of.
- FlashBus.FlashWrite: one request is one device transaction, and a device that stays busy forever is not modelled.
- Conditions.EvaluateChecks: numbers are integers or decimals, and the rendered error text is not modelled.
