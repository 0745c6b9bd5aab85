/** What single steps and whole runs promise about one task: its lock, its history and its keys. */
module Guarantees {
  import opened Rows
  import opened Runs
  import opened Scheduler
  import opened Moves
  import opened Desk
  import opened Links
  import opened DeskSteps
  import opened Recovery
  import opened System

  /** The task is still there with the same board, team, owner, collaborators and archive flag, and
      its run is still its active run or has ended. */
  ghost predicate StillLocked(d: Desk, runs': seq<Run>, d': Desk, t: TaskId)
    requires t in d.tasks && d.tasks[t].activeRun.Some?
  {
    var r := d.tasks[t].activeRun.value;
    && t in d'.tasks && SameLockedFields(d.tasks[t], d'.tasks[t]) && r < |runs'|
    && (d'.tasks[t].activeRun == Some(r) || runs'[r].state.Terminal())
  }

  lemma LockIsLive(runs: seq<Run>, d: Desk, t: TaskId)
    requires LinkInv(runs, d) && t in d.tasks && d.tasks[t].activeRun.Some?
    ensures Locked(runs, d.tasks[t])
  {}

  lemma KeepsLockedHoldsLock(runs: seq<Run>, d: Desk, d': Desk, t: TaskId)
    requires t in d.tasks && d.tasks[t].activeRun.Some? && Locked(runs, d.tasks[t]) && KeepsLocked(runs, d, d')
    ensures StillLocked(d, runs, d', t)
  {
    assert TaskKept(runs, d.tasks[t], d'.tasks[t]);
  }

  lemma DeskStepHoldsLock(runs: seq<Run>, d: Desk, e: DeskStep, t: TaskId)
    requires LinkInv(runs, d) && t in d.tasks && d.tasks[t].activeRun.Some?
    ensures StillLocked(d, runs, ApplyDesk(runs, d, e), t)
  {
    LockIsLive(runs, d, t);
    if e.TaskDelete? {
      DeletionSparesRunning(runs, d, 0, e.task, t);
    } else if e.BoardDelete? {
      DeletionSparesRunning(runs, d, e.board, 0, t);
    } else {
      StepsKeepLocked(runs, d, e);
      KeepsLockedHoldsLock(runs, d, ApplyDesk(runs, d, e), t);
    }
  }

  lemma WriteHoldsLock(runs: seq<Run>, d: Desk, q: RunId, state: RunState, t: TaskId)
    requires LinkInv(runs, d) && q < |runs| && WriteFits(runs, d, q, state)
    requires t in d.tasks && d.tasks[t].activeRun.Some?
    ensures StillLocked(d, SetState(runs, q, state), AfterWrite(runs, d, q, state), t)
  {}

  lemma StartHoldsLock(runs: seq<Run>, d: Desk, q: TaskId, key: nat, revision: Option<nat>, run: Run, t: TaskId)
    requires LinkInv(runs, d) && CheckStart(runs, d, q, key, revision).Go?
    requires t in d.tasks && d.tasks[t].activeRun.Some?
    ensures StillLocked(d, runs + [run], LinkRun(d, q, key, |runs|, CheckStart(runs, d, q, key, revision).stage), t)
  {
    LockIsLive(runs, d, t);
  }

  lemma UntouchedHoldsLock(runs: seq<Run>, d: Desk, runs': seq<Run>, t: TaskId)
    requires LinkInv(runs, d) && t in d.tasks && d.tasks[t].activeRun.Some? && |runs| <= |runs'|
    ensures StillLocked(d, runs', d, t)
  {}

  /** The running write says nothing to the boards, and the failed one counts as an end of a live run. */
  lemma AdmissionTables(sys: Sys, q: RunId)
    requires q < |sys.s.runs| && sys.s.runs[q].state.Queued?
    ensures AfterWrite(sys.s.runs, sys.d, q, Running) == sys.d
    ensures AdmitRun(sys, q).s.runs == (if sys.s.runs[q].agent in sys.s.profiles then SetState(sys.s.runs, q, Running)
                                        else SetState(SetState(sys.s.runs, q, Running), q, Failed))
    ensures AdmitRun(sys, q).d == (if sys.s.runs[q].agent in sys.s.profiles then sys.d
                                   else AfterWrite(SetState(sys.s.runs, q, Running), sys.d, q, Failed))
  {}

  lemma AdmissionHoldsLock(sys: Sys, limits: Limits, q: RunId, t: TaskId)
    requires LinkInv(sys.s.runs, sys.d) && q < |sys.s.runs| && sys.s.runs[q].state.Queued?
    requires t in sys.d.tasks && sys.d.tasks[t].activeRun.Some?
    ensures StillLocked(sys.d, AdmitRun(sys, q).s.runs, AdmitRun(sys, q).d, t)
  {
    AdmissionTables(sys, q);
    FittingWriteKeepsLinkInv(sys.s.runs, sys.d, q, Running);
    WriteHoldsLock(sys.s.runs, sys.d, q, Running, t);
    if sys.s.runs[q].agent !in sys.s.profiles { WriteHoldsLock(SetState(sys.s.runs, q, Running), sys.d, q, Failed, t); }
  }

  lemma RestartHoldsLock(sys: Sys, t: TaskId)
    requires LinkInv(sys.s.runs, sys.d) && t in sys.d.tasks && sys.d.tasks[t].activeRun.Some?
    ensures StillLocked(sys.d, Boot(sys).s.runs, Boot(sys).d, t)
  {
    LinkInvHasLinkedRows(sys.s.runs, sys.d);
    BootedRuns(sys);
    BootedTasks(sys);
  }

  lemma TaskStartHoldsLock(sys: Sys, limits: Limits, q: TaskId, key: nat, revision: Option<nat>, t: TaskId)
    requires LinkInv(sys.s.runs, sys.d) && t in sys.d.tasks && sys.d.tasks[t].activeRun.Some?
    ensures var sys' := StartTask(sys, limits, q, key, revision); StillLocked(sys.d, sys'.s.runs, sys'.d, t)
  {
    var check := CheckStart(sys.s.runs, sys.d, q, key, revision);
    UntouchedHoldsLock(sys.s.runs, sys.d, sys.s.runs, t);
    if check.Go? { StartHoldsLock(sys.s.runs, sys.d, q, key, revision, Run(check.agent, NoParent, 0, Queued), t); }
  }

  /** While a task has an active run no step of the system changes its board, team, owner,
      collaborators or archive flag, or makes it forget the run before the run has ended. */
  lemma LockedUntilTheRunEnds(sys: Sys, limits: Limits, step: Step, t: TaskId)
    requires LinkInv(sys.s.runs, sys.d) && Fits(sys, step)
    requires t in sys.d.tasks && sys.d.tasks[t].activeRun.Some?
    ensures var sys' := Next(sys, limits, step); StillLocked(sys.d, sys'.s.runs, sys'.d, t)
  {
    match step
    case TaskStart(q, key, revision) => TaskStartHoldsLock(sys, limits, q, key, revision, t);
    case Admission(q) =>
      UntouchedHoldsLock(sys.s.runs, sys.d, sys.s.runs, t);
      if MayAdmit(sys, limits, q) { AdmissionHoldsLock(sys, limits, q, t); }
    case RunWrite(q, state) =>
      UntouchedHoldsLock(sys.s.runs, sys.d, sys.s.runs, t);
      if q < |sys.s.runs| && !state.Queued? { WriteHoldsLock(sys.s.runs, sys.d, q, state, t); }
    case OfDesk(e) => DeskStepHoldsLock(sys.s.runs, sys.d, e, t);
    case OfMoves(m) =>
      MovesKeepRows(sys.s, m);
      UntouchedHoldsLock(sys.s.runs, sys.d, sys.s.runs, t);
    case NewRun(agent, parent, depth) => UntouchedHoldsLock(sys.s.runs, sys.d, Next(sys, limits, step).s.runs, t);
    case Restart => RestartHoldsLock(sys, t);
  }

  // ----- history -----

  lemma WritesKeepLinks(runs: seq<Run>, d: Desk, r: RunId, state: RunState)
    requires r < |runs|
    ensures AfterWrite(runs, d, r, state).links == d.links
  {}

  lemma AdmissionKeepsLinks(sys: Sys, r: RunId)
    requires r < |sys.s.runs|
    ensures AdmitRun(sys, r).d.links == sys.d.links
  {
    WritesKeepLinks(sys.s.runs, sys.d, r, Running);
    WritesKeepLinks(SetState(sys.s.runs, r, Running), AfterWrite(sys.s.runs, sys.d, r, Running), r, Failed);
  }

  ghost predicate Remembered(d: Desk, d': Desk, r: RunId)
    requires r in d.links
  {
    d.links[r].task in d'.tasks ==> r in d'.links && d'.links[r] == d.links[r]
  }

  lemma DeskStepRemembers(runs: seq<Run>, d: Desk, e: DeskStep, r: RunId)
    requires LinkInv(runs, d) && Numbered(d.links) && r in d.links
    ensures Remembered(d, ApplyDesk(runs, d, e), r)
  {
    StepsKeepLinks(runs, d, e);
  }

  lemma StartRemembers(sys: Sys, limits: Limits, t: TaskId, key: nat, revision: Option<nat>, r: RunId)
    requires LinkInv(sys.s.runs, sys.d) && r in sys.d.links
    ensures Remembered(sys.d, StartTask(sys, limits, t, key, revision).d, r)
  {
    assert r < |sys.s.runs|;
  }

  lemma BootKeepsLinks(sys: Sys)
    ensures Boot(sys).d.links == sys.d.links
  {}

  lemma OtherStepsKeepLinks(sys: Sys, limits: Limits, step: Step)
    requires !step.TaskStart? && !step.OfDesk?
    ensures Next(sys, limits, step).d.links == sys.d.links
  {
    match step
    case Admission(q) => if MayAdmit(sys, limits, q) { AdmissionKeepsLinks(sys, q); }
    case RunWrite(q, state) => if q < |sys.s.runs| { WritesKeepLinks(sys.s.runs, sys.d, q, state); }
    case Restart => BootKeepsLinks(sys);
    case _ =>
  }

  /** An attempt is remembered with its number and key as long as its task exists. */
  lemma AttemptsAreRemembered(sys: Sys, limits: Limits, step: Step, r: RunId)
    requires LinkInv(sys.s.runs, sys.d) && Numbered(sys.d.links) && r in sys.d.links
    ensures Remembered(sys.d, Next(sys, limits, step).d, r)
  {
    if step.TaskStart? {
      StartRemembers(sys, limits, step.task, step.key, step.revision, r);
    } else if step.OfDesk? {
      DeskStepRemembers(sys.s.runs, sys.d, step.edit, r);
    } else {
      OtherStepsKeepLinks(sys, limits, step);
    }
  }

  ghost predicate TaskSurvives(sys: Sys, limits: Limits, steps: seq<Step>, t: TaskId)
    decreases |steps|
  {
    t in sys.d.tasks && (steps == [] || TaskSurvives(Next(sys, limits, steps[0]), limits, steps[1..], t))
  }

  /** Starting again with a key that was used once creates nothing, however much has happened since,
      and is answered with the run of the first start. */
  lemma {:induction false} RepeatedStartCreatesNothing(sys: Sys, limits: Limits, steps: seq<Step>, t: TaskId, key: nat,
                                                       run: RunId, revision: Option<nat>)
    requires Inv(sys, limits) && AllFit(sys, limits, steps) && TaskSurvives(sys, limits, steps, t)
    requires run in sys.d.links && sys.d.links[run].task == t && sys.d.links[run].key == key
    ensures var later := RunAll(sys, limits, steps);
            StartTask(later, limits, t, key, revision) == later && KeyHolders(later.d, t, key) == {run}
    decreases |steps|
  {
    if steps == [] {
      RepeatedStartIsRecognised(sys.s.runs, sys.d, t, key, run, revision);
    } else {
      StepKeepsInv(sys, limits, steps[0]);
      AttemptsAreRemembered(sys, limits, steps[0], run);
      RepeatedStartCreatesNothing(Next(sys, limits, steps[0]), limits, steps[1..], t, key, run, revision);
    }
  }

  // ----- one move at a time -----

  /** An agent has at most one transfer that is not finished. */
  ghost predicate OneMovePerAgent(transfers: seq<Transfer>) {
    forall i, j | 0 <= i < j < |transfers| && transfers[i].state.InProgress() && transfers[j].state.InProgress() ::
      transfers[i].agent != transfers[j].agent
  }

  /** The row still says who is to move from where to where, and with which profile. */
  predicate SameErrand(t: Transfer, t': Transfer) {
    t'.agent == t.agent && t'.source == t.source && t'.destination == t.destination && t'.pending == t.pending
  }

  /** Rows may be appended for an agent without an open transfer; others keep their errand and never reopen. */
  ghost predicate TransfersAdvance(s: Sched, s': Sched) {
    && |s.transfers| <= |s'.transfers| <= |s.transfers| + 1
    && (forall i | 0 <= i < |s.transfers| ::
          SameErrand(s.transfers[i], s'.transfers[i]) && (s'.transfers[i].state.InProgress() ==> s.transfers[i].state.InProgress()))
    && (|s.transfers| < |s'.transfers| ==> !Transferring(s, s'.transfers[|s.transfers|].agent))
  }

  lemma RequestsAdvance(s: Sched, a: AgentId, destination: MachineId, desired: Profile)
    ensures TransfersAdvance(s, RequestMove(s, a, destination)) && TransfersAdvance(s, PutProfile(s, a, desired))
  {}

  lemma RowUpdateAdvances(s: Sched, machines: map<MachineId, Machine>, i: nat, t: Transfer)
    requires i < |s.transfers| && SameErrand(s.transfers[i], t) && (t.state.InProgress() ==> s.transfers[i].state.InProgress())
    ensures TransfersAdvance(s, SetTransfer(s.(machines := machines), i, t))
  {}

  lemma StagesAdvance(s: Sched, i: nat, checksum: nat)
    ensures TransfersAdvance(s, StartExport(s, i)) && TransfersAdvance(s, FinishExport(s, i, checksum))
    ensures TransfersAdvance(s, FinishImport(s, i, checksum))
  {
    if i < |s.transfers| {
      var t := s.transfers[i];
      if InStage(s, i, Waiting) { RowUpdateAdvances(s, s.machines, i, t.(state := Exporting)); }
      if InStage(s, i, Exporting) { RowUpdateAdvances(s, s.machines, i, t.(state := Importing, exported := Some(checksum))); }
      if InStage(s, i, Importing) { RowUpdateAdvances(s, s.machines, i, t.(state := Verifying, imported := Some(checksum))); }
    }
  }

  lemma FailuresAdvance(s: Sched, i: nat)
    ensures TransfersAdvance(s, FailTransfer(s, i)) && TransfersAdvance(s, LoseTransferLease(s, i))
  {
    if i < |s.transfers| {
      var t := s.transfers[i];
      var released := Reserve(s.machines, t.destination, t.agent, false);
      RowUpdateAdvances(s, released, i, t.(state := Abandoned, live := false));
      RowUpdateAdvances(s, released, i, t.(state := Abandoned));
    }
  }

  lemma VerificationAdvances(s: Sched, i: nat)
    ensures TransfersAdvance(s, Verify(s, i))
  {}

  lemma MoveStepsAdvance(s: Sched, m: MoveStep)
    ensures TransfersAdvance(s, ApplyMove(s, m))
  {
    match m
    case MoveRequest(a, destination) => RequestsAdvance(s, a, destination, Profile(0, 0, 0, NoDesktop, false));
    case ProfilePut(a, desired) => RequestsAdvance(s, a, 0, desired);
    case ExportStarted(i) => StagesAdvance(s, i, 0);
    case ExportDone(i, checksum) => StagesAdvance(s, i, checksum);
    case ImportDone(i, checksum) => StagesAdvance(s, i, checksum);
    case Verification(i) => VerificationAdvances(s, i);
    case TransferFailed(i) => FailuresAdvance(s, i);
    case TransferLeaseLost(i) => FailuresAdvance(s, i);
    case _ =>
  }

  lemma AdvancingKeepsOneMove(s: Sched, s': Sched)
    requires OneMovePerAgent(s.transfers) && TransfersAdvance(s, s')
    ensures OneMovePerAgent(s'.transfers)
  {}

  lemma OtherStepsKeepTransfers(sys: Sys, limits: Limits, step: Step)
    requires !step.OfMoves? && !step.Restart?
    ensures Next(sys, limits, step).s.transfers == sys.s.transfers
  {}

  lemma StepKeepsOneMove(sys: Sys, limits: Limits, step: Step)
    requires OneMovePerAgent(sys.s.transfers)
    ensures OneMovePerAgent(Next(sys, limits, step).s.transfers)
  {
    if step.OfMoves? {
      MoveStepsAdvance(sys.s, step.move);
      AdvancingKeepsOneMove(sys.s, ApplyMove(sys.s, step.move));
    } else if !step.Restart? {
      OtherStepsKeepTransfers(sys, limits, step);
    }
  }

  /** Two moves of the same agent never overlap, over any steps and restarts, timely or not. */
  lemma {:induction false} MovesNeverOverlap(sys: Sys, limits: Limits, steps: seq<Step>)
    requires OneMovePerAgent(sys.s.transfers)
    ensures OneMovePerAgent(RunAll(sys, limits, steps).s.transfers)
    decreases |steps|
  {
    if steps != [] {
      StepKeepsOneMove(sys, limits, steps[0]);
      MovesNeverOverlap(Next(sys, limits, steps[0]), limits, steps[1..]);
    }
  }

  lemma StepKeepsErrands(sys: Sys, limits: Limits, step: Step)
    ensures var transfers, transfers' := sys.s.transfers, Next(sys, limits, step).s.transfers;
            |transfers| <= |transfers'| && forall i | 0 <= i < |transfers| :: SameErrand(transfers[i], transfers'[i])
  {
    if step.OfMoves? {
      MoveStepsAdvance(sys.s, step.move);
    } else if !step.Restart? {
      OtherStepsKeepTransfers(sys, limits, step);
    }
  }

  /** What a transfer is to do never changes once it is requested, over any steps and restarts. */
  lemma {:induction false} ErrandsNeverChange(sys: Sys, limits: Limits, steps: seq<Step>, i: nat)
    requires i < |sys.s.transfers|
    ensures var sys' := RunAll(sys, limits, steps);
            i < |sys'.s.transfers| && SameErrand(sys.s.transfers[i], sys'.s.transfers[i])
    decreases |steps|
  {
    if steps != [] {
      StepKeepsErrands(sys, limits, steps[0]);
      ErrandsNeverChange(Next(sys, limits, steps[0]), limits, steps[1..], i);
    }
  }
}
