# Open Harness: a model of the coordinator

Open Harness runs a small team of agents. A single coordinator process keeps its state in SQLite
tables. It decides which agent run may start, ties runs to cards on task boards, hands work to remote
runners, moves agents between computers, and repairs its tables after a crash. This project models that
logic in Dafny and proves what its rules promise, over every input and every reachable state.

The coordinator is single-threaded, so each stretch of code between two waits is one atomic step. The
model has the same shape. Tables are sequences and maps; generated identifiers are numbers in creation
order; times are integers; card positions are reals.

## How it is built

Each operation is written once as a function on table values, its specification. Where the program works
by updating tables, objects or sets in place there is also a class whose methods, with the loops of the
program, are proved to bring about exactly what the function says. Laws and invariants are then proved
about the functions: what may never happen, and, said of the table rows alone, exactly when an operation is accepted
and what it then changes (`Admission`, `CardEffects`, `BoardEffects`, `MoveOutcomes`, `StepOutcomes`, `ProtocolProgress`,
the last part of `Teams`).

| part | files |
|---|---|
| runs, limits, admission, delegation | `Rows`, `Runs`, `Scheduler`, `Pump`, `Admission`, `Stopping`, `Coordinator` |
| moving agents between computers | `Moves`, `Relocation`, `MoveOutcomes` |
| boards, cards, teams | `Ranking`, `Cards`, `CardLists`, `Desk`, `Links`, `Teams`, `Boards`, `DeskSteps`, `CardEffects`, `BoardEffects`, `TaskTables` |
| all of these as one transition system, with crashes | `Database`, `Recovery`, `System`, `StepOutcomes`, `Crashes`, `Guarantees`, `Workflow` |
| runner command protocol | `Commands`, `Protocol`, `ProtocolProgress`, `Fleet`, `RunnerProcess`, `RemoteRuns` |
| gateway requests and prompts | `Gateway` |
| transfer bundles | `Trees`, `TransferFiles`, `RoundTrips` |
| tool names and grants | `ToolNames` |
| routines | `Routines` |

The central results are `System.EveryReachableState` (all invariants of scheduler, moves, boards and teams
in every state that fitting steps reach), `Crashes.EveryStateAfterCrashes` (the same when any step, also the start
itself, may be cut off between two of its statements), `Admission.PicksTheOldest`, `CardEffects.WriteEndsCard`,
`MoveOutcomes.MoveDeliversWhatWasAsked`, `Protocol.SpooledWorkIsNeverUncertain` and
`Protocol.AtMostOnceDispatchExactlyOnceEffects` (runner protocol over a network that loses, delays and
repeats, with crashes on both sides), `ProtocolProgress.CrashIsRecovered`, `Coordinator.Service.StopRunTree`, `CardLists.CardsRefineLists`,
`RoundTrips.RoundTrip`, `Gateway.FirstDecisiveInputSettles` and `Routines.WindowsAreBounded`.

## Hypotheses, and where the code does less than one may expect

The code does not check everything the invariants need. What it leaves open is stated as the predicate
`System.Fits` on steps. For each part of it there is an exact condition and a concrete state in which a
property fails without it.

- **State writes to runs that have ended.** `setRun` never looks at the current state. A write keeps the
  capacity limits, the machine limits, and runs and moves apart, exactly when it wakes no run, or one for which
  there is a slot, room on its machine, and no move (`WriteKeepsCapacityIff`, `WriteKeepsMachineLimitsIff`,
  `WriteKeepsMoveInvIff`); a late question to a cancelled run breaks all three (`WokenRunExceedsLimits`,
  `WokenRunDisturbsAMove`). A write keeps the link between tasks and runs exactly under `WriteFits`
  (`WriteKeepsLinkInvIff`): waking an old attempt gives its task two live runs (`WokenAttemptIsSecond`), and
  since `syncRun` clears `active_run_id` without comparing it, a second end of an old run detaches a newer
  attempt (`SecondEndDetachesNewAttempt`).
- **A completion without a completion stage** leaves the task as it is, so its `active_run_id` names an
  ended run (`CompletionWithoutStageStays`), and a restart does not change that (`BootedTasks`). Only
  recategorising the last review stage can bring a board there (`StepsKeepEquippedIff`); without it the hypothesis
  is discharged (`CarefulRunsAreSound`).
- **Stopping a tree** marks a run cancelled and then waits. What is written during the wait decides whether it stays
  stopped (`StopStepStopsIff`, `TreeStopsIff`): a late question revives it (`LateQuestionRevives`), and if nothing
  revives an ended run the whole tree ends stopped (`QuietTreeStops`).
- **A coordinator crash between an event's receipt and its effect** loses the event: the retry is answered as a
  duplicate and its file removed (`CrashAtReceiptLosesTheEvent`, `FirstEventMayBeLost`). Events are lost in no other way
  (`LostIffCutOffAtReceipt`).
- **The 100-row window.** `pump` counts machine occupants among the 100 newest runs. It counts right exactly
  when they all lie there (`SeenAllIffInWindow`); otherwise a machine can be overbooked
  (`OldOccupantIsOverlooked`). It also reads 100 queued runs: a round finds nothing exactly when every
  startable run has 100 older queued ones (`PicksTheOldest`). So it is work-conserving for queue limits up to
  100 (`PumpIsWorkConserving`), and above that it may leave all slots free (`LongQueueIsOverlooked`).
- **Saving a profile that was read earlier.** The credential route reads the profile before it waits for the
  request body, and a verified move keeps the profile's revision. Saving such a draft can put an agent back on
  its old computer while a run works on the new one (`StaleDraftUndoesAMove`); assignments survive exactly when the draft
  is current (`SaveDraftKeepsMachinesIff`).
- **Moving a card with another team's name in the request** is validated for that team but writes none
  (`MoveKeepsTeamInvIff`, `MoveMayLeaveTheTeam`).
- **A failed transfer** reports "Source assignment and data were preserved". If the destination's
  reservation is refused only after the checksums were compared, the profile has been reassigned already
  (`VerifiedMoveOutcome`), as when the destination is revoked while the files are verified
  (`FailedTransferMayReassign`). The model follows the code.
- **A heartbeat that takes longer than the 45-second lease age** can fail work whose completion is already
  spooled (`LateHeartbeatLosesWork`, `HeartbeatKeepsClaimsIff`).
- **A runner that comes back after the grace period.** Its command row gets the spooled result, but the
  coordinator judges the machine before it reads the row and gives the run up (`LateReturnLosesTheRun`). The result
  arrives exactly when it is read before the machine was offline for too long (`RunEndsIff`).
- **Two spellings of one name.** A bundle is sorted by `localeCompare`, which equates different spellings of the
  same characters. An import always succeeds all the same (`ImportOfExportSucceeds`). But two exports of the same
  files agree, whatever order the folders are listed in, exactly when no two files below one managed
  path collate alike (`SameFilesSameBundleIff`, `RoundTrip`, `ListingDecidesBetweenSpellings`).
- **Team names** are compared by `lower()` when they are checked and by `localeCompare` when they are imported. The
  check keeps them unique in its own sense (`StepsKeepNames`), in the sense of the import exactly when no
  edit succeeds that gives a team a name like another's (`EditsKeepApartIff`). Names that differ in the case of a letter
  outside ASCII are two teams, and an import of the second is taken for the first and refused
  (`ImportByNameRefusedIff`, `CaseOutsideAsciiMisleads`).
- **Connection names** with a double underscore, or ending in an underscore, are accepted, but their tools are judged by another
  connection's switch (`ServerOfToolIdIff`, `GrantsFollowTheJudge`, `GrantsFollowConnections`, `MisleadingNames`).
- **Routines.** A crash between creating a run and recording it makes the next tick create it again
  (`LostRecordStartsTwice`). A crash between the record and the new time, or a manual run in the very
  millisecond the timer waits for, leaves the routine stuck until it is edited (`GetsStuckIff`,
  `StuckAtTheFirstMinute`, `StuckUntilEdited`).
- **Removing a stage into itself** passes all checks, touches the cards and is then stopped by the foreign
  key, exactly when there are cards (`CheckedRemovalFailsIff`, `RemovalIntoItselfFails`).

Freedom from delegation deadlock is not claimed: chains of delegating runs can fill all four slots while
each waits for a run that is still queued.

## Model

| member | source | states |
|---|---|---|
| Runs.ChainsAreShortAndAcyclic | runtime/service.ts:376-386 | Along every ancestor chain the agents are pairwise distinct, the walk ends at a root, and there is one run per level, at most three for roots of natural depth. |
| Runs.ForestAfterCreate | runtime/service.ts:379-386 | A row that passes the depth and cycle checks keeps the delegation forest. |
| Runs.Descendants | runtime/db.ts:132-137 | The recursive query returns every proper descendant exactly once and nothing else, by a worklist loop that terminates. |
| Scheduler.WriteKeepsCapacityIff | runtime/db.ts:141-148 | Writing a state keeps the limits (4 active, 2 top-level, one per agent, board runs, queue) if and only if it does not wake an inactive run without a free slot. |
| Scheduler.AdmitKeepsCapacity | runtime/service.ts:313-325 | Admitting an eligible run keeps all limits, also when it fails at once for lack of a profile. |
| Scheduler.SeenAllIffInWindow | runtime/service.ts:320 | The occupants counted through the 100 newest runs are all occupants if and only if no occupant is older than that. |
| Scheduler.AdmitKeepsMachineLimitsIff | runtime/service.ts:317-323 | Admission keeps concurrency in admission order and the exclusive use of the existing desktop if and only if the machine really has room. |
| Scheduler.EligibleHasRoom | runtime/service.ts:317-323 | What `pump` checks is that room, when the machine's occupants lie in its window. |
| Scheduler.WriteKeepsMachineLimits | runtime/db.ts:141-148 | Ends and changes of active runs never break a machine limit. |
| Scheduler.WriteKeepsMachineLimitsIff | runtime/db.ts:141-148 | Any state write keeps records and machine limits if and only if it wakes no run, or one whose machine has room for it among those admitted before and after. |
| Scheduler.WokenRunExceedsLimits | runtime/service.ts:240-249 | A concrete late question to a cancelled run that gives its agent two active runs and overbooks the machine. |
| Admission.EligibleIff | runtime/service.ts:313-323 | What `pump` tests holds exactly for a queued run of an idle agent that is neither stopped nor moved, within the limits for tasks and top-level runs, and with a place on its agent's machine; said of the rows alone. |
| Admission.PicksTheOldest | runtime/service.ts:313-326 | Each round starts the oldest such run among the first 100 queued, and finds none if and only if every such run has 100 older queued ones. |
| Admission.HeldBackOnlyForLimits | runtime/service.ts:312-323 | With a free slot and the machine's runs in the window, a queued run may start if and only if its agent is neither stopped nor moved, its machine takes it, and every limit holds afterwards. |
| Admission.PumpSettles | runtime/service.ts:310-328 | When the loop stops, four runs are active or every run that could start has at least 100 older queued runs. |
| Admission.PumpIsWorkConserving | runtime/service.ts:310-328 | With a queue limit of at most 100 the loop ends with exactly four active runs or with no run that could start. |
| Pump.LongQueueIsOverlooked | runtime/service.ts:313 | A concrete queue of 101 runs on which the call starts nothing, with every slot free and its last run eligible. |
| Pump.PumpStartsOnlyReadyRuns | runtime/service.ts:313-323 | A whole call starts queued runs only, with the agent's current profile, on an online machine the agent may use, none of an agent being stopped or moved; every other run is untouched. |
| Pump.PumpKeepsCapacity | runtime/service.ts:310-328 | A whole call keeps every limit and only shrinks the queue. |
| Pump.PumpKeepsMachineLimits | runtime/service.ts:310-328 | A whole call keeps the machine limits when all live runs are among the 100 newest. |
| Pump.OldOccupantIsOverlooked | runtime/service.ts:320 | A concrete state in which an older occupant is overlooked and the machine is overbooked. |
| Admission.CreatedIff | runtime/service.ts:376-391 | A run is accepted if and only if the agent has a profile, the level is at most two, nobody on the delegating line is the agent, and the queue has room; otherwise the first failing check is reported. |
| Coordinator.Service.CreateRun | runtime/service.ts:376-391 | The method with its ancestor walk and queue check accepts and refuses exactly as specified, in the order of the checks, and adds exactly one row. |
| Coordinator.Service.Ancestors | runtime/service.ts:383-384 | The walk over parents terminates and collects exactly the agents of the chain. |
| Coordinator.Service.StartTask | runtime/tasks.ts:451-474 | Starting a task creates one run, links it as the next attempt under its key and makes it the active run, or changes nothing. |
| Coordinator.Service.Execute | runtime/service.ts:256-264 | Up to its first wait: running, profile snapshot and start number; or failed at once without a profile, with the listener called for every write. |
| Coordinator.Service.FindNext | runtime/service.ts:313-323 | The search loop finds the first eligible run among the first 100 queued ones. |
| Coordinator.Service.PumpRuns | runtime/service.ts:310-328 | The loop terminates and does what the recursive specification of `pump` says to runs and boards. |
| Coordinator.PumpSteps | runtime/service.ts:310-328 | A call of `pump` is a sequence of admission steps, each within the hypotheses of the invariants. |
| Coordinator.PumpSysKeepsInv | runtime/service.ts:310-328 | So it keeps every invariant of the whole system. |
| Coordinator.Service.StopLocal | runtime/service.ts:346-359 | A local run is cancelled, everything other handlers write during the wait happens, and it is interrupted if its gateway fails; runs and boards end exactly so. |
| Coordinator.Service.StopOne | runtime/service.ts:336-360 | One step of the stop request: an ended run is skipped, a remote one always gets a stop command, also when it had one before, a local one is stopped; the agent is always released. |
| Coordinator.Service.StopRunTree | runtime/service.ts:330-364 | The request visits the run and every descendant once and has exactly the specified effect, for all writes of other handlers during its waits; if these revive no ended run, every run of the tree has ended or its machine has been sent a stop command. |
| Stopping.StopStepStopsIff | runtime/service.ts:339-359 | One stop leaves its run stopped if and only if the run had ended, is remote, cannot have its gateway stopped, or is last written an end, if anything, during the wait. |
| Stopping.TreeStopsIff | runtime/service.ts:330-364 | Whatever is written meanwhile, the run at one place of the tree ends stopped if and only if it is sent a command at its turn, or the last write heard for it in later waits is an end, or none is heard and it was stopped at its turn. |
| Stopping.QuietTreeStops | runtime/service.ts:330-364 | If no ended run is revived during the waits, every run of the tree ends stopped. |
| Stopping.UndisturbedStop | runtime/service.ts:330-364 | Without interference exactly the local runs of the tree that had not ended change, and all others stay. |
| Stopping.LateQuestionRevives | runtime/service.ts:240-249 | A concrete question during the wait that revives the cancelled run. |
| Coordinator.Service.InterruptRuns | runtime/service.ts:448 | The heartbeat route interrupts the runs of lost commands, one after the other, with what the listener does to their tasks; ended and other runs stay. |
| Coordinator.Service.OnQuestion | runtime/service.ts:240-249 | A question from the agent puts the run on hold whatever its state was. |
| Coordinator.Service.Open | runtime/service.ts:50-53 | The start-up statements and loops bring about exactly the recovery specification. |
| Coordinator.Service.OpenIsBoot | runtime/service.ts:50-53 | That state is the recovery step of the transition system. |
| Database.RunListener.OnRun | runtime/tasks.ts:486-502 | The listener writes stage and active run of the run's task as specified, without comparing the active run. |
| CardEffects.EndOfRun | runtime/tasks.ts:486-500 | The listener puts a completed card on its board's completion stage, or the first review stage by position, leaves a card whose run ended otherwise where it is, and touches nothing else. |
| CardEffects.WriteEndsCard | runtime/db.ts:141-148 | So does every state write of the system, whose row then has exactly that state. |
| CardEffects.StartSettlesCards | runtime/tasks.ts:511-514 | At a start every card with an active run is settled as if that run ended then, interrupted unless it had ended before; all others stay. |
| CardEffects.StartAcceptedIff | runtime/tasks.ts:451-461 | A task start is accepted if and only if the key is new, nothing runs for the card, it has an owner with a profile, the revision is current, the board has a run stage and the queue has room. |
| CardEffects.StartedCard | runtime/tasks.ts:462-474 | An accepted start queues one top-level run of the owner, links it as the next attempt, and puts the card on the run stage, or the first stage in progress. |
| CardEffects.ApprovalOutcome | runtime/tasks.ts:476-484 | Approval moves the card to the first done stage exactly if there is one, no run is recorded as active, and the revision is current. |
| CardEffects.NewBoardPlacesWork | runtime/tasks.ts:151-170 | On a new board started, completed and approved work goes to the third, fourth and fifth stage. |
| Database.RunListener.Reconcile | runtime/tasks.ts:511-514 | The replay loop settles every task whose active run has ended, in any order. |
| Database.Store.SetRun | runtime/db.ts:141-148 | The row is written first, then the listener runs on the new row. |
| Database.Store.AgentIsBusy | runtime/db.ts:138 | True exactly when the agent has an active run. |
| Database.Store.Queued | runtime/db.ts:131 | The oldest queued runs in order, all of them or exactly `limit`. |
| Database.Store.RecoverActive | runtime/db.ts:112-113 | Opening the database interrupts exactly the active runs. |
| Database.Store.RecoverQueued | runtime/tasks.ts:101-102 | Opening the boards interrupts exactly the queued runs of tasks. |
| Moves.VerifyMovesOnlyOnMatch | runtime/service.ts:213-216 | Verification reassigns nobody but the moved agent, only to the destination, and only when the imported checksum equals the exported one. |
| Moves.VerifiedMoveOutcome | runtime/service.ts:213-217 | With equal checksums the agent is always reassigned under its current revision; the row ends as completed exactly if the destination can still be reserved. |
| Moves.FailedTransferMayReassign | runtime/service.ts:213-218 | A concrete transfer, its destination revoked during verification, that ends as failed with the agent assigned to the revoked machine. |
| Moves.StagesKeepMoveInv | runtime/service.ts:194-200 | Every stage keeps runs and moves apart: files move only while the agent is idle. |
| Moves.PutKeepsMoveInv | runtime/service.ts:557-562 | A profile that names another computer never changes the assignment by itself. |
| MoveOutcomes.PutRefusedIff | runtime/service.ts:557-560 | A profile save is refused if and only if the agent is being moved, the machine is not open to it, or the revision is outdated. |
| MoveOutcomes.PutStores | runtime/service.ts:558-562 | On the own machine the profile is stored as desired under the next revision; for another one the old settings stay, and one transfer holds the desired ones; the machine is reserved as wanted. |
| MoveOutcomes.RequestOutcome | runtime/machines.ts:169 | A transfer request is refused exactly for an unknown agent, an open transfer, the own machine, or one not open to it; otherwise one row holds the current settings. |
| Guarantees.ErrandsNeverChange | runtime/service.ts:194-217 | Over any steps and restarts a transfer keeps its agent, source, destination and pending profile. |
| MoveOutcomes.MoveDeliversWhatWasAsked | runtime/service.ts:213-217 | Whatever happens between a save that moves the agent and the comparison of equal checksums, the agent then has exactly the settings asked for, nobody else changes, and where the destination still fits the move completes with the reservation wanted. |
| MoveOutcomes.MismatchLeavesTheAgent | runtime/service.ts:213-218 | Different checksums change no profile, fail the move and release only a reservation of the agent. |
| MoveOutcomes.FailureOutcome | runtime/service.ts:218 | A failing move, or one whose lease is lost, marks its row failed and releases its destination, and changes nothing else. |
| MoveOutcomes.DraftOutcome | runtime/service.ts:566-572 | A profile read earlier is saved as it was read, under the next revision, if and only if the revision is still the same. |
| MoveOutcomes.UndisturbedMoveArrives | runtime/service.ts:194-217 | With nothing in the way the move of an idle agent completes so. |
| Moves.AdmitKeepsMoveInv | runtime/service.ts:314 | No run of an agent is admitted during its transfer, and an admitted run works on its agent's computer. |
| Moves.WriteKeepsMoveInvIff | runtime/db.ts:141-148 | Any state write keeps runs and moves apart if and only if it wakes no run, or one started for its agent's computer whose agent is not being moved. |
| Moves.WokenRunDisturbsAMove | runtime/service.ts:240-249 | A concrete late question that makes an agent work while its files are exported. |
| Moves.SaveDraftKeepsMachinesIff | runtime/service.ts:566-572 | Saving a profile read earlier keeps all assignments if and only if the draft is current. |
| Moves.SaveDraftKeepsPlacementIff | runtime/service.ts:566-572 | It keeps active runs on their agent's computer if and only if the draft is current or the agent idle. |
| Moves.StaleDraftUndoesAMove | runtime/service.ts:554-572 | A concrete interleaving in which a saved draft undoes a finished move under a running agent. |
| Relocation.Mover.IsTransferring | runtime/machines.ts:170 | True exactly when the agent has a transfer in one of the four open states. |
| Relocation.Mover.ReserveMachine | runtime/machines.ts:133-137 | Reserving is refused for unknown, revoked and otherwise reserved machines; releasing leaves another agent's reservation alone. |
| Relocation.Mover.RequestTransfer | runtime/service.ts:515-522 | A transfer row for another, assignable computer, or no change. |
| Relocation.Mover.Put | runtime/service.ts:557-563 | The profile PUT branch: saved with the old computer plus a transfer, saved as it is, or refused. |
| Relocation.Mover.Complete | runtime/service.ts:213-216 | Checksum comparison, profile, reservations and row, including the late refusal. |
| Links.ActiveRunIsTheOneLiveRun | runtime/tasks.ts:451-502 | A task's `active_run_id` is exactly its one run that has not ended. |
| Links.WriteKeepsLinkInvIff | runtime/tasks.ts:486-502 | Exactly the fitting state writes keep tasks and runs in agreement. |
| Links.SecondEndDetachesNewAttempt | runtime/tasks.ts:497-498 | A concrete second end of an old run that detaches the newer attempt. |
| Links.WokenAttemptIsSecond | runtime/service.ts:240-249 | A concrete late question to an old attempt that gives its task two live runs. |
| Links.CompletionWithoutStageStays | runtime/tasks.ts:490-492 | A concrete completion on a board without a completion stage that leaves the ended run active. |
| Links.StartKeepsLinkInv | runtime/tasks.ts:451-472 | A start links a run of the owner, when nothing else of the task is live. |
| Links.LinkRunKeepsNumbering | runtime/tasks.ts:466-469 | The new attempt is one more than the number of attempts so far; attempts stay 1..n and keys unique. |
| Links.DeletionSparesRunning | runtime/tasks.ts:209-224 | Deleting a board or a card never takes a running task. |
| Guarantees.LockedUntilTheRunEnds | runtime/tasks.ts:389-420 | While a task has an active run, no step of the system changes its board, team, owner, collaborators or archive flag, or forgets the run before it has ended. |
| Guarantees.AttemptsAreRemembered | runtime/tasks.ts:466-469 | An attempt keeps its number and key as long as its task exists. |
| Guarantees.RepeatedStartCreatesNothing | runtime/tasks.ts:452-454 | Repeating a start with its key, after any later steps, changes nothing and is answered with the first run. |
| Guarantees.MovesNeverOverlap | runtime/machines.ts:169-170 | Over any steps and restarts an agent has at most one unfinished transfer. |
| Teams.ValidatedEditsKeepTeamInv | runtime/service.ts:409-419 | What the validation lets through keeps every current team task inside its team, whatever version the request had read. |
| Teams.MoveKeepsTeamInvIff | runtime/service.ts:689 | A card move keeps that if and only if the owner it writes is a member of the task's own team. |
| Teams.FreshMoveStaysInTeam | runtime/service.ts:409-419 | Without a team in the request, on an unchanged task, the validation is that condition. |
| Teams.MoveMayLeaveTheTeam | runtime/tasks.ts:429 | A concrete request with another team's name takes a card out of its team. |
| Teams.TeamEditsKeepTeamInv | runtime/teams.ts:56-121 | Replacing members, creating and retiring keep every current team task inside its team. |
| Teams.ImportKeepsTeamInv | runtime/teams.ts:78-93 | So does importing a team, found by identifier, by name, or created. |
| Teams.ImportKeepsNames | runtime/teams.ts:78-93 | An import, found by identifier, by name, or created, keeps the names of active teams unique under `lower()`. |
| Teams.EditsKeepApartIff | runtime/teams.ts:68-107 | Creating or renaming a team keeps names apart for the import's comparison if and only if it is refused or no other active team has a name like it. |
| Teams.ImportByNameRefusedIff | runtime/teams.ts:78-107 | An import taken for a team by its name is refused if and only if another active team has the name, or a leaving member has a current task. |
| Teams.CaseOutsideAsciiMisleads | runtime/teams.ts:46-82 | Two concrete teams, created one after the other, of which the second can no longer be imported under its own name. |
| Teams.TeamEditOutcome | runtime/teams.ts:56-107 | A team is changed exactly under its current revision, with a free name, if nobody who leaves owns or helps with a current card of it; then name and members are as asked for. |
| Teams.TeamLifeOutcome | runtime/teams.ts:68-121 | A team is created exactly under a new identifier and a free name, and retired exactly when all its cards are archived. |
| Teams.ImportOutcome | runtime/teams.ts:78-93 | An import is about the active team with its identifier, else the first with a name like it, else a new one, and changes that team only. |
| Teams.ValidationOutcome | runtime/service.ts:409-419 | A card request is let through if and only if owner and helpers belong to its active team, or it has no team and no helpers beyond those of a card without a team. |
| TaskTables.TeamStore.ReplaceMembers | runtime/teams.ts:56-66 | Refused exactly when a leaving member owns or helps with a current task of the team; otherwise exactly the members change. |
| TaskTables.TeamStore.Update | runtime/teams.ts:95-107 | Members and revision change together, or nothing does. |
| TaskTables.TeamStore.Import | runtime/teams.ts:78-93 | An active team found by identifier, else by name, is updated at its own revision; otherwise one is created or refused. |
| TaskTables.TeamStore.ValidateAssignment | runtime/teams.ts:132-144 | Allowed exactly for members of an active team, or without team and helpers; the owner is dropped from the helpers. |
| TaskTables.TaskStore.UpdateTask | runtime/tasks.ts:389-411 | The patch is applied under the revision, the lock and the stage check, or nothing changes. |
| TaskTables.TaskStore.Move | runtime/tasks.ts:420-435 | Search, placing and renumbering loops produce the specified board. |
| TaskTables.TaskStore.Renumber | runtime/tasks.ts:431 | The listed cards get 1000, 2000, ... in order; no other card changes. |
| TaskTables.TaskStore.RemoveStage | runtime/tasks.ts:304-321 | Cards, stage and settings in this order give the specified board. |
| TaskTables.TaskStore.DuplicateBoard | runtime/tasks.ts:226-253 | The copying loops give the specified board. |
| Cards.PlacedExactlyIffRoom | runtime/tasks.ts:425-427 | The new position puts the card exactly before its neighbour, or last, if and only if there is room. |
| Cards.SettleKeepsOrder | runtime/tasks.ts:430-431 | Renumbering keeps the order of all cards. |
| Cards.SettleSpaces | runtime/tasks.ts:430-431 | Whatever collisions there were, all gaps end at least 0.001. |
| CardLists.MoveIsInsertionIffRoom | runtime/tasks.ts:420-435 | The shown list is the list insertion if and only if there is room between the neighbours. |
| CardLists.MovedPositions | runtime/tasks.ts:435-441 | The card lands half-way between its neighbours, or 1000 before the first or behind the last; exactly when two cards of the stage are then closer than 0.001 they all get 1000, 2000 and so on. |
| CardLists.MoveSpacesTarget | runtime/tasks.ts:420-435 | The target stage ends well spaced; every other stage loses the card and keeps its order. |
| CardLists.CreateIsAppend | runtime/tasks.ts:356-369 | A new card is the last of its stage and leaves other stages alone. |
| CardLists.CardsRefineLists | runtime/tasks.ts:356-435 | Any sequence of creations and moves from well-spaced stages behaves like edits of a free-standing wall of plain lists that knows no positions, and the stages stay well spaced. |
| Boards.SettingsResolve | runtime/tasks.ts:120-131 | Run and completion stage always resolve to stages of the board, missing only without a stage of the fallback category. |
| Boards.RemoveStageLosesNothing | runtime/tasks.ts:304-321 | No task is lost, cards go to the chosen stage of the same board, and a stage with cards is never deleted. |
| Boards.CheckedRemovalFailsIff | runtime/tasks.ts:304-321 | A removal that passes every check fails if and only if the stage's own cards are to go to the stage itself, and then they have changed. |
| Boards.RemovalIntoItselfFails | runtime/tasks.ts:304-321 | A concrete board on which that happens. |
| Boards.DuplicateIsIsomorphic | runtime/tasks.ts:226-242 | Stages are copied one for one in order, and the copy's settings, read back from its own table, are the images of the original's. |
| Boards.DuplicateCopiesCards | runtime/tasks.ts:243-251 | One image per card, on the image of its stage, with the same content and without a run, and nothing else new. |
| Boards.DuplicateKeepsBoardInv | runtime/tasks.ts:226-253 | Afterwards every task still sits on a stage of its own board. |
| BoardEffects.EditOutcome | runtime/tasks.ts:389-420 | An edit is accepted exactly under the current revision, onto a stage of its board, and while a run is awaited only if no locked field changes; each field then takes the value asked for. |
| BoardEffects.NewCardOutcome | runtime/tasks.ts:356-369 | A new card comes on the stage asked for or the first backlog stage, with the owner asked for or the board's default, one behind the last card. |
| BoardEffects.MoveOutcome | runtime/tasks.ts:429-444 | A card is moved if and only if nothing runs for it and the stage is on its board; owner and stage are as asked for, and of other cards only positions change. |
| BoardEffects.DeletionOutcome | runtime/service.ts:687 | A card is deleted with its attempts if and only if it has no active run. |
| BoardEffects.NewStageOutcome | runtime/tasks.ts:282-291 | A stage is added behind all others of its board. |
| BoardEffects.StageEditOutcome | runtime/tasks.ts:292-302 | Category and position take the values asked for; board and all other stages stay. |
| BoardEffects.RemovalRefusedIff | runtime/tasks.ts:304-314 | The exact conditions under which a stage may not be removed. |
| BoardEffects.RemovalOutcome | runtime/tasks.ts:312-320 | Otherwise the stage disappears, its cards are on the named stage, and the settings are what they resolve to without it. |
| BoardEffects.BoardEditOutcome | runtime/tasks.ts:186-196 | A board is changed exactly under its revision and archived only without active runs; its stage settings resolve as asked for or as they were. |
| BoardEffects.BoardDeletionOutcome | runtime/tasks.ts:209-224 | A board is deleted with its stages, cards and attempts if and only if another one is not archived and nothing runs for its cards. |
| BoardEffects.CopiedBoardRow | runtime/tasks.ts:226-242 | A copy is not archived and has the owner asked for or the original's. |
| DeskSteps.StepsKeepBoardInv | runtime/tasks.ts:186-484 | Every board operation keeps every task on a stage of its own board. |
| DeskSteps.StepsKeepTeamInv | runtime/tasks.ts:356-435 | Every board and team operation keeps current team tasks inside their team (moves with a fitting owner). |
| DeskSteps.StepsKeepNames | runtime/teams.ts:46-52 | No operation makes two active teams share a name. |
| DeskSteps.StepsKeepLinks | runtime/tasks.ts:186-484 | Every board operation keeps tasks and runs in agreement and the attempts numbered; links go only with their task. |
| Recovery.BootRecovers | runtime/db.ts:111-113 | From any crash point: no run active, no board run live, no transfer open or holding its destination, other queued and ended runs unchanged. |
| Recovery.BootedTasks | runtime/tasks.ts:511-514 | After a start a task holds an active run exactly if that run had completed and its board has no completion stage. |
| Recovery.ReleasedMachines | runtime/machines.ts:53-55 | The destination of every interrupted transfer is released. |
| Recovery.OtherReservationsKept | runtime/machines.ts:53-55 | No machine loses its reservation otherwise. |
| System.FirstStart | runtime/db.ts:60-113 | The empty database satisfies all invariants. |
| StepOutcomes.AdmissionOutcome | runtime/service.ts:256-264 | An admission starts a run exactly if it may start and a slot is free: running, with the current profile and the next start number, or failed without a profile. |
| StepOutcomes.RequestOutcomes | runtime/service.ts:376-391 | Accepted rows are added, agents being stopped are held back, machine rows follow what is reported. |
| StepOutcomes.ProfileImportOutcome | runtime/profiles.ts:74-75 | Importing a profile never replaces one that exists. |
| StepOutcomes.CutsInsideWrites | runtime/service.ts:256-264 | What a crash leaves inside an admission or a state write, statement by statement. |
| System.LiveWritesAreTimely | runtime/db.ts:141-148 | Writes to runs that have not ended fit, once completed work has a stage to go to. |
| System.MoveStepsKeepMoveInv | runtime/service.ts:194-218 | Over all steps of a move an assignment changes only at a verified end, or by an outdated draft. |
| Crashes.CrashDuringWriteIsDurable | runtime/db.ts:141-148 | A crash between any state row and its listener is a crash point the next start repairs. |
| Crashes.CrashAfterRunningIsDurable | runtime/service.ts:256-257 | So is the crash after the running write of `execute`, which leaves an active run without a snapshot or start event. |
| Crashes.CrashAfterSnapshotIsDurable | runtime/service.ts:261-264 | So is the crash after the snapshot, before the start event. |
| Crashes.CrashAfterFailureIsDurable | runtime/service.ts:302-306 | So is the crash after the failed write of a run whose agent has no profile. |
| Crashes.CrashAfterStageDeletionIsDurable | runtime/tasks.ts:315-319 | So is the crash after a stage is deleted, while the settings still name it. |
| Crashes.CrashDuringMoveIsDurable | runtime/service.ts:213-216 | So are the crashes between the statements of a profile save and of the end of a transfer. |
| Crashes.CutsAreDurable | runtime/service.ts:194-360 | Every crash point between two statements of a step is durable; transactions are single statements. |
| Crashes.StartCutsAreDurable | runtime/service.ts:50-53 | So is every crash point of the start itself. |
| Crashes.StartAgainRestoresInv | runtime/service.ts:50-53 | However often the start is cut off, once it gets through every invariant holds. |
| Crashes.EveryStateAfterCrashes | runtime/service.ts:50-53 | All invariants hold in every state reached by steps and by crashes between their statements. |
| Crashes.EveryStateFromTheFirstStart | runtime/db.ts:60-113 | In particular from the empty database on. |
| System.BootRestoresInv | runtime/service.ts:50-53 | Every invariant holds again after a start from any durable state, also with active runs that have no snapshot or start number. |
| System.EveryReachableState | runtime/service.ts:256-391 | All invariants of limits, machines, moves, forest, links, numbering, boards and teams hold in every state reached by fitting steps. |
| Workflow.EquippedBoardsPlaceWork | runtime/tasks.ts:120-131 | A board with a stage of each protected category always has a run, a completion and a done stage. |
| Workflow.StepsKeepEquippedIff | runtime/tasks.ts:292-321 | Every board operation keeps that, except exactly `updateStage` when it recategorises the last stage of a protected category. |
| Workflow.CarefulRunsAreSound | runtime/service.ts:256-391 | With state writes to live runs only and no such recategorisation, all invariants hold in every reachable state without assuming that completions find a stage. |
| Commands.BatchIsOldestTen | runtime/machines.ts:156 | A reply holds at most ten waiting commands, the oldest first. |
| Commands.FirstResultStays | runtime/machines.ts:157 | A command that has not ended takes the result, one that has keeps its own, and no other is touched. |
| Commands.OperationsProgress | runtime/machines.ts:117-157 | A command's status only moves forward and its first result never changes. |
| Protocol.HeartbeatKeepsClaimsIff | runtime/machines.ts:117-131 | Handling a heartbeat keeps the promise to the runner if and only if it spares every command the runner answers for. |
| Protocol.SpooledWorkIsNeverUncertain | runtime/runner.ts:84-87 | Over crashes, lost replies and repetitions, a command with a spooled completion is leased or ended as spooled, and ended once the file is gone. |
| Protocol.SpooledWorkCanBeDelivered | runtime/runner.ts:84-85 | From every such state, sending the file once records the result. |
| ProtocolProgress.CommandRoundTrip | runtime/machines.ts:155-157 | A waiting command with fewer than ten before it is taken by one poll, and its completion recorded by one delivery. |
| ProtocolProgress.EventRoundTrip | runtime/machines.ts:155 | An event takes effect by one delivery, after all before it, and its file is removed. |
| ProtocolProgress.LostLeaseIsReportedIff | runtime/machines.ts:117-131 | A heartbeat fails a lease if and only if it does not list the command and the lease is more than 45 seconds old. |
| ProtocolProgress.LostReplyIsReported | runtime/runner.ts:169-173 | Commands in a poll reply that never arrives are reported once their leases are too old. |
| ProtocolProgress.CoordinatorStepOutcomes | runtime/machines.ts:117-156 | New commands wait at the end; a coordinator crash inside a poll or heartbeat leaves exactly the first rows done and no reply. |
| ProtocolProgress.CrashIsRecovered | runtime/runner.ts:82-166 | After a runner crash at any point some steps bring it back to serving with an empty spool, every completion it wrote recorded and every event received. |
| ProtocolProgress.TakenWorkIsReported | runtime/machines.ts:117-131 | Work that the crash took is reported as uncertain by the first heartbeat after its lease is too old. |
| Protocol.AtMostOnceDispatchExactlyOnceEffects | runtime/machines.ts:155-157 | No command is in two replies, rows only move forward, and each event is applied at most once; when its file is gone it has been applied exactly once if and only if it was not lost between receipt and effect. |
| Protocol.LostIffCutOffAtReceipt | runtime/service.ts:456 | An event is lost if and only if the coordinator crashes in its first handling, after the receipt and before the effect. |
| Protocol.FirstEventMayBeLost | runtime/service.ts:453-457 | A concrete run in which the retry of such an event is acknowledged and the event never applied. |
| Protocol.SoundFromTheStart | runtime/runner.ts:164-176 | From the first start on all of this holds, over any steps with timely heartbeats. |
| Protocol.LateHeartbeatLosesWork | runtime/machines.ts:118 | A concrete late heartbeat that fails finished work. |
| RemoteRuns.RunEndsIff | runtime/service.ts:169-189 | For any looks, exactly when the wait ends and with what: with the command's result if and only if it is read at a look before which it was not cancelled, had not failed, and the machine was never offline longer than the grace period, this look included. |
| RemoteRuns.LateReturnLosesTheRun | runtime/service.ts:176-188 | A concrete return after six minutes whose result is in the row and whose run is given up. |
| RemoteRuns.ExecuteRemote | runtime/service.ts:174-188 | The polling loop decides as specified. |
| Fleet.Machines.Poll | runtime/machines.ts:156 | Leases exactly the batch on this machine; other machines keep their rows. |
| Fleet.Machines.FinishCommand | runtime/machines.ts:157 | The first result is recorded, a repetition is answered as a duplicate, an unknown command refused. |
| Fleet.Machines.ReceiveEvent | runtime/machines.ts:155 | An event is fresh exactly once, and only for the run its command was issued for. |
| Fleet.Machines.ReconcileLeases | runtime/machines.ts:117-132 | Fails exactly the old leases the runner does not claim, and the transfers behind them. |
| Fleet.Machines.Recover | runtime/machines.ts:53-55 | The start-up loop fails open transfers and releases their destinations. |
| Fleet.LosesTransfersOnly | runtime/machines.ts:122-129 | Losing leases fails exactly the moving transfers behind them. |
| RunnerProcess.Runner.FlushSpool | runtime/runner.ts:85 | In directory order every file that can be read is delivered once, the others are skipped and stay; then the runner serves. |
| RunnerProcess.Runner.ReceiveBatch | runtime/runner.ts:172 | Each command of a reply is started once, and not again while admitted. |
| RunnerProcess.Runner.CompletionFileDelivered | runtime/runner.ts:84-87 | File and admission go together, after the answer. |
| RunnerProcess.Runner.HeartbeatList | runtime/runner.ts:170 | A heartbeat lists exactly the admitted commands. |
| RunnerProcess.Runner.SpoolResult | runtime/runner.ts:87 | The completion is on disk before anything is sent. |
| Gateway.RepliesReachTheirRequest | runtime/hermes.ts:64-105 | In one step only waiting requests are settled, each by its own answer (JSON-RPC 2.0, section 5), and settled ones keep theirs. |
| Gateway.EachRequestIsSettledOnce | runtime/hermes.ts:64-105 | Over any inputs every request stays waiting or settled, a settled one keeps its reply, and a waiting one ends with the first answer to it. |
| Gateway.FirstDecisiveInputSettles | runtime/hermes.ts:106-127 | Over any inputs a prompt ends exactly as the first decisive one says; acknowledgements and other sessions decide nothing, and an early completion is not lost. |
| Gateway.ExitLeavesNothingOpen | runtime/hermes.ts:83-87 | When the process ends no request and no prompt is left open. |
| Gateway.EventsEndPrompts | runtime/hermes.ts:111-119 | An open prompt resolves with its completed work and breaks with failed work; only the user's stop counts as an interruption, and events of other sessions say nothing. |
| Gateway.SilenceEndsPrompts | runtime/hermes.ts:83-121 | It is interrupted when the process ends, when the gateway is stopped, and when nothing comes in time. |
| Gateway.RepliesEndPrompts | runtime/hermes.ts:123-125 | The acknowledgement leaves it open, a plain result resolves it, an error, a timeout or a missing process breaks it, not as an interruption. |
| Gateway.HermesGateway.OnLine | runtime/hermes.ts:64-76 | A line settles its pending request or is emitted as an event to all listeners. |
| Gateway.HermesGateway.OnExit | runtime/hermes.ts:83-87 | The loops over requests and listeners do what the specification says. |
| Gateway.HermesGateway.Stop | runtime/hermes.ts:151-167 | All listeners are told at once, and pending requests wait for the end of the process. |
| Gateway.HermesGateway.SubmitPrompt | runtime/hermes.ts:106-126 | The listener is there before the request is made. |
| Trees.WriteChangesOnlyItsPath | runtime/transfer-files.ts:24 | Writing a file changes the file at its path and no other. |
| Trees.UnblockedWriteSucceeds | runtime/transfer-files.ts:24 | A write succeeds when no file lies above or below its path. |
| Trees.VisitMeets | runtime/transfer-files.ts:11-15 | The recursive visit meets exactly the files below the path. |
| TransferFiles.CollectedMeets | runtime/transfer-files.ts:9-17 | The export collects exactly the files at managed paths. |
| TransferFiles.ManagedPaths | runtime/transfer-files.ts:6 | Managed are the private folder, the two profile notes and the skills folder. |
| RoundTrips.SameFilesSameBundle | runtime/transfer-files.ts:8-18 | Where collation tells the files of each managed path apart, the bundle depends only on the managed files. |
| RoundTrips.SameFilesSameBundleIff | runtime/transfer-files.ts:8-18 | All trees with the same managed files, however listed, give the same bundle if and only if no two files below one managed path collate alike. |
| RoundTrips.ListingDecidesBetweenSpellings | runtime/transfer-files.ts:17 | A concrete folder with two spellings of one name that gives two bundles. |
| TransferFiles.ImportStaysManaged | runtime/transfer-files.ts:22-24 | No import, also of a malformed bundle, writes outside the managed paths. |
| TransferFiles.PlainPaths | runtime/transfer-files.ts:22-23 | A relative path without steps is taken as it is, exactly if it is managed; absolute paths and paths that begin with a step up are refused. |
| TransferFiles.StepsInPaths | runtime/transfer-files.ts:22-23 | Steps in place, empty parts, and a name followed by a step up make no difference anywhere in a path. |
| TransferFiles.TransferLimits | runtime/transfer-files.ts:13-27 | An import succeeds if and only if every file goes to a managed path, is what its checksum says and finds room, at most 100 million bytes arrive and the list has its checksum; an export fails if and only if it holds more than 20 million bytes. |
| TransferFiles.ImportOfExportSucceeds | runtime/transfer-files.ts:8-27 | Importing any exported bundle into an empty folder succeeds with the same checksum and brings over exactly the managed files, whatever collates alike. |
| RoundTrips.RoundTrip | runtime/transfer-files.ts:8-27 | Exporting the destination again, however listed and with whatever beside, gives the identical bundle if and only if no two files of the source below one managed path collate alike. |
| TransferFiles.AgentFolder.ExportAgentFiles | runtime/transfer-files.ts:8-18 | The recursive procedure with its running total equals the specification, limit included. |
| TransferFiles.AgentFolder.ImportAgentFiles | runtime/transfer-files.ts:19-27 | The import loop equals the specification, also when it stops half-way. |
| ToolNames.ServerOfToolIdIff | lib/agent-profile.ts:65-70 | The server read back from a tool name is the server if and only if its name is nonempty, has no double underscore and no trailing underscore. |
| ToolNames.OldNamesAreRenamed | lib/agent-profile.ts:83-90 | A name in the old form becomes the tool of the first connection it fits; other names stay. |
| ToolNames.CoordinationToolsAreRenamed | lib/agent-profile.ts:74-78 | The three old names of the coordination server's tools become its tools. |
| ToolNames.NormalizeIsIdempotent | lib/agent-profile.ts:83-90 | Normalising twice is normalising once. |
| ToolNames.ValidToolsIsFixpoint | runtime/profiles.ts:44 | The stored tool list is a fixpoint of validation. |
| ToolNames.GrantsFollowConnections | lib/agent-profile.ts:119-125 | A run gets a selected tool as its connection is switched if and only if the name is plain, the connection that judges it is switched alike, or the tool is not selected. |
| ToolNames.GrantsFollowTheJudge | lib/agent-profile.ts:66-70 | For every accepted connection name, its selected tools are granted if and only if the server that judges them, the name up to the first double underscore, is enabled. |
| ToolNames.OwnSwitchDecidesIff | lib/agent-profile.ts:119-125 | A connection's own switch decides over its tools if and only if its name is plain. |
| ToolNames.MisleadingNames | lib/agent-profile.ts:66-70 | A double underscore hands the tools to the connection named before it, a trailing underscore to the one without it. |
| ToolNames.GrantsAddNothing | lib/agent-profile.ts:119-125 | Grants add nothing, keep ordinary tools, and drop old-form names without a connection. |
| ToolNames.SeparatorInNameMisleads | lib/agent-profile.ts:66-70 | Tools of a connection with a double underscore in its name are judged by the connection named before it. |
| Routines.ActionKeepsSpacing | runtime/service.ts:835-856 | Ticks, failures, edits, switches and manual runs keep starts an interval apart; a crash before the record keeps it exactly when nothing was due. |
| Routines.WindowsAreBounded | runtime/service.ts:839-864 | A window of length T holds at most floor(T / interval) + 1 of the timer's runs, for every lower bound of the intervals in force. |
| Routines.SpacedFromCreation | runtime/service.ts:737 | From its creation on a routine's starts are an interval apart, short of a lost record. |
| Routines.OneCatchUp | runtime/service.ts:835-843 | After any downtime a tick creates at most one run, and ticks within the next interval none. |
| Routines.TickOutcome | runtime/service.ts:835-856 | A due tick leaves the routine on if and only if its agent exists, and then due one interval later; a run is started and recorded if and only if it was created. |
| Routines.EditOutcome | runtime/service.ts:749-766 | An edit takes the interval asked for, from one minute to a year, or keeps the old one, counts it from now, and gets an enabled routine going again. |
| Routines.SwitchOutcome | runtime/service.ts:775-776 | A switch turns the routine on or off and nothing else; a manual run only leaves its record. |
| Routines.StartsAgain | runtime/service.ts:845-855 | After a tick that was refused or started, the first tick an interval later starts the run. |
| Routines.CreatedIsGoing | runtime/service.ts:737 | A new routine is on, not stuck, and waits for its first interval. |
| Routines.StartsKeepComing | runtime/service.ts:835-864 | While the timer ticks at least once per gap and the agent exists, starts and refusals come at least once per interval and gap, over any time. |
| Routines.LostRecordStartsTwice | runtime/service.ts:843-845 | A crash before the record makes the next tick start the run again. |
| Routines.GetsStuckIff | runtime/service.ts:841-845 | Exactly a manual run at the awaited moment and a crash after the record get a routine stuck. |
| Routines.StuckAtTheFirstMinute | runtime/service.ts:835-845 | A concrete routine on which each of the two does so. |
| Routines.StuckUntilEdited | runtime/service.ts:841 | A stuck routine never starts again until it is edited. |
| Routines.Timer.OnTimer | runtime/service.ts:857-864 | The loop treats every due routine once, and one routine's failure does not stop the others. |

## Left out

- Every stretch of code between two waits is one step; a JavaScript exception inside a step is modelled only where the code handles it.
- HTTP routing, authentication, pairing, containers, Hermes itself, the user interface and the desktop shell.
- Names, labels, comments, colours, checklists, activity, prompts, results and other text columns; JSON and SQL text.
- `Routines`: deleting a routine, fractional minutes given when a routine is created, and time zones.
- Card positions are reals, so the rounding of halved floating-point positions is not modelled; `created_at` ties are resolved by insertion order.
- The collaborator list is a set without the cap of 25; the board flags for running on drop and agent dispatch are not modelled.
- Team names are two numbers, one for each comparison of the code; that names equal under `lower()` are alike for an import is not used, and the creation time, which cannot decide between active teams, is left out of their order. Member profiles are taken to exist.
- Creating and updating boards, stages and cards, archiving and deletion are modelled on values only (`Desk`), since each is one or two plain writes.
- RemoteRuns.RunEndsIff: what each look reads (time, online, row) is an input, and only the loop is modelled, not the row its caller writes when it ends.
- Protocol.SpooledWorkCanBeDelivered: a half-written spool file counts as never spooled, and a file the coordinator keeps refusing is retried for ever.
- One runner and its own command rows are modelled in `Protocol`; `Fleet` keeps the rows of different machines apart.
- RoundTrips.RoundTrip: the digest is uninterpreted, the text encoding is an inverse pair, file names hold no backslash, and folders on the way are not symbolic links.
- Tool names that are property names of every JavaScript object (such as `constructor`) are not modelled in the table of old coordination names.
- Gateway: the mock mode, the start-up handshake and log lines.
- Model defaults, credentials, profile text, folders and resources other than concurrency.
- The move request with a `teamId` is validated as in the code, but the team is not written, as in the code.
- Coordinator.Service.StopRunTree: runs created below the tree during the waits are not visited, as in the code, and stop commands are taken to wait until the request returns.
- Liveness beyond `pump` (fairness of the network, progress of agents) and delegation deadlock.
