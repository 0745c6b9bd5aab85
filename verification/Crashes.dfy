/** Crashes between two statements: of an admission, a state write, a stage removal, a profile save, the
    end of a transfer, and the start-up itself. Whatever point it is, the next start repairs it. */
module Crashes {
  import opened Rows
  import opened Runs
  import opened Scheduler
  import opened Moves
  import opened Desk
  import opened Links
  import opened Teams
  import opened Boards
  import opened DeskSteps
  import opened Recovery
  import opened System

  /** The last statement that reached the database. Statements inside one transaction are no crash points. */
  datatype Cut =
    | RunningWritten(run: RunId)
    | SnapshotTaken(run: RunId)
    | FailureWritten(run: RunId)
    | StateWritten(run: RunId, state: RunState)
    | CardsRelocated(stage: StageId, to: Option<StageId>)
    | StageDeleted(stage: StageId, to: Option<StageId>)
    | ProfileSaved(agent: AgentId, desired: Profile)
    | DestinationReserved(agent: AgentId, desired: Profile)
    | ProfileApplied(transfer: nat)
    | SourceReleased(transfer: nat)
    | DestinationKept(transfer: nat)
    | DestinationReleased(transfer: nat)
    | LeaseFailed(transfer: nat)

  /** The start's own crash points: active runs interrupted, then queued runs of tasks, then some tasks
      replayed, then the destinations of the first transfers released. */
  datatype StartCut = ActiveInterrupted | QueuedInterrupted | Replayed(tasks: set<TaskId>) | Released(count: nat)

  // ----- the tables at a cut -----

  function WithRuns(sys: Sys, runs: seq<Run>): Sys { Sys(sys.s.(runs := runs), sys.d) }

  function AdmissionCut(sys: Sys, limits: Limits, c: Cut): Sys
    requires c.RunningWritten? || c.SnapshotTaken? || c.FailureWritten?
  {
    var r := c.run;
    if !MayAdmit(sys, limits, r) then sys
    else
      var running := SetState(sys.s.runs, r, Running);
      var agent := sys.s.runs[r].agent;
      if c.RunningWritten? then WithRuns(sys, running)
      else if c.SnapshotTaken? && agent in sys.s.profiles then
        Sys(sys.s.(runs := running, snapshots := sys.s.snapshots[r := sys.s.profiles[agent]]), sys.d)
      else if c.FailureWritten? && agent !in sys.s.profiles then WithRuns(sys, SetState(running, r, Failed))
      else sys
  }

  function StageCut(d: Desk, c: Cut): Desk
    requires c.CardsRelocated? || c.StageDeleted?
  {
    if c.CardsRelocated? then
      if CanRemoveStage(d, c.stage, c.to) && c.to.Some? then Relocate(d, c.stage, c.to.value) else d
    else RemoveStage(d, c.stage, c.to).(boards := d.boards)
  }

  /** `save` without the reservation and the transfer row that follow. */
  function SavedProfile(s: Sched, agent: AgentId, desired: Profile): Sched {
    var s' := PutProfile(s, agent, desired);
    s.(profiles := s'.profiles)
  }

  function MoveCut(s: Sched, c: Cut): Sched
    requires !c.RunningWritten? && !c.SnapshotTaken? && !c.FailureWritten? && !c.StateWritten?
    requires !c.CardsRelocated? && !c.StageDeleted?
  {
    match c
    case ProfileSaved(agent, desired) => SavedProfile(s, agent, desired)
    case DestinationReserved(agent, desired) => s.(profiles := PutProfile(s, agent, desired).profiles,
                                                   machines := PutProfile(s, agent, desired).machines)
    case ProfileApplied(i) => if Applies(s, i) then Applied(s, i) else s
    case SourceReleased(i) => if Applies(s, i) then SourceFreed(s, i) else s
    case DestinationKept(i) => if Applies(s, i) then s.(profiles := Applied(s, i).profiles, machines := Verify(s, i).machines) else s
    case DestinationReleased(i) => s.(machines := FailTransfer(s, i).machines)
    case LeaseFailed(i) => s.(transfers := LoseTransferLease(s, i).transfers)
  }

  predicate Applies(s: Sched, i: nat) {
    InStage(s, i, Verifying) && s.transfers[i].imported == s.transfers[i].exported && s.transfers[i].agent in s.profiles
  }

  function Applied(s: Sched, i: nat): Sched
    requires Applies(s, i)
  {
    var t := s.transfers[i];
    s.(profiles := s.profiles[t.agent := t.pending.(revision := s.profiles[t.agent].revision)])
  }

  function SourceFreed(s: Sched, i: nat): Sched
    requires Applies(s, i)
  {
    var t := s.transfers[i];
    Applied(s, i).(machines := Reserve(s.machines, t.source, t.agent, false))
  }

  function CutOff(sys: Sys, limits: Limits, c: Cut): Sys {
    match c
    case StateWritten(r, state) =>
      if r < |sys.s.runs| && !state.Queued? then WithRuns(sys, SetState(sys.s.runs, r, state)) else sys
    case RunningWritten(r) => AdmissionCut(sys, limits, c)
    case SnapshotTaken(r) => AdmissionCut(sys, limits, c)
    case FailureWritten(r) => AdmissionCut(sys, limits, c)
    case CardsRelocated(st, to) => Sys(sys.s, StageCut(sys.d, c))
    case StageDeleted(st, to) => Sys(sys.s, StageCut(sys.d, c))
    case _ => Sys(MoveCut(sys.s, c), sys.d)
  }

  function StartedRuns(runs: seq<Run>): (runs': seq<Run>)
    ensures |runs'| == |runs|
    ensures forall r: RunId | r < |runs| :: runs'[r] == runs[r].(state := if runs[r].state.Active() then Interrupted else runs[r].state)
  {
    RecoverRuns(runs, {})
  }

  function ReplayedDesk(runs: seq<Run>, d: Desk, done: set<TaskId>): Desk {
    d.(tasks := map t | t in d.tasks :: if t in done && t in Reconciled(runs, d).tasks then Reconciled(runs, d).tasks[t] else d.tasks[t])
  }

  function StartCutOff(sys: Sys, c: StartCut): Sys {
    var runs := RecoverRuns(sys.s.runs, sys.d.links.Keys);
    match c
    case ActiveInterrupted => WithRuns(sys, StartedRuns(sys.s.runs))
    case QueuedInterrupted => WithRuns(sys, runs)
    case Replayed(done) => Sys(sys.s.(runs := runs), ReplayedDesk(runs, sys.d, done))
    case Released(n) =>
      Sys(sys.s.(runs := runs, machines := ReleaseAll(sys.s.machines, sys.s.transfers[..if n <= |sys.s.transfers| then n else |sys.s.transfers|])),
          Reconciled(runs, sys.d))
  }

  // ----- admissions and state writes -----

  lemma WriteShrinksQueue(runs: seq<Run>, r: RunId, state: RunState)
    requires r < |runs| && !state.Queued?
    ensures |QueuedRuns(SetState(runs, r, state))| <= |QueuedRuns(runs)|
  {
    assert QueuedRuns(SetState(runs, r, state)) <= QueuedRuns(runs);
    Cardinality(QueuedRuns(SetState(runs, r, state)), QueuedRuns(runs));
  }

  lemma WrittenRecords(s: Sched, r: RunId, state: RunState)
    requires Records(s) && r < |s.runs| && !state.Queued?
    ensures RecordRows(s.(runs := SetState(s.runs, r, state)))
  {}

  lemma WrittenRunRows(s: Sched, linked: set<RunId>, limits: Limits, r: RunId, state: RunState)
    requires SchedInv(s, linked, limits) && r < |s.runs| && !state.Queued?
    ensures DurableRuns(s.(runs := SetState(s.runs, r, state)), limits)
  {
    ForestAfterState(s.runs, r, state);
    WriteShrinksQueue(s.runs, r, state);
    WrittenRecords(s, r, state);
  }

  /** A crash between a state row and its listener, whatever state is written to whatever run. */
  lemma CrashDuringWriteIsDurable(sys: Sys, limits: Limits, r: RunId, state: RunState)
    requires Inv(sys, limits) && r < |sys.s.runs| && !state.Queued?
    ensures Durable(WithRuns(sys, SetState(sys.s.runs, r, state)), limits)
  {
    WrittenRunRows(sys.s, sys.d.links.Keys, limits, r, state);
    InterruptedWriteHasLinkedRows(sys.s.runs, sys.d, r, state);
  }

  /** After the running write of `execute` the run is active without a snapshot or a start number. */
  lemma CrashAfterRunningIsDurable(sys: Sys, limits: Limits, r: RunId)
    requires Inv(sys, limits) && MayAdmit(sys, limits, r)
    ensures var cut := CutOff(sys, limits, RunningWritten(r));
            Durable(cut, limits) && !Records(cut.s) && cut.s.runs[r].state.Active()
  {
    CrashDuringWriteIsDurable(sys, limits, r, Running);
  }

  lemma SnapshotRowIsDurable(s: Sched, limits: Limits, r: RunId, p: Profile)
    requires DurableRuns(s, limits) && r < |s.runs| && !s.runs[r].state.Queued?
    ensures DurableRuns(s.(snapshots := s.snapshots[r := p]), limits)
  {}

  /** After the snapshot, before the start event. */
  lemma CrashAfterSnapshotIsDurable(sys: Sys, limits: Limits, r: RunId)
    requires Inv(sys, limits) && MayAdmit(sys, limits, r) && sys.s.runs[r].agent in sys.s.profiles
    ensures Durable(CutOff(sys, limits, SnapshotTaken(r)), limits)
  {
    var running := WithRuns(sys, SetState(sys.s.runs, r, Running));
    CrashDuringWriteIsDurable(sys, limits, r, Running);
    SnapshotRowIsDurable(running.s, limits, r, sys.s.profiles[sys.s.runs[r].agent]);
  }

  /** After the failed write of a run whose agent has no profile. */
  lemma CrashAfterFailureIsDurable(sys: Sys, limits: Limits, r: RunId)
    requires Inv(sys, limits) && MayAdmit(sys, limits, r) && sys.s.runs[r].agent !in sys.s.profiles
    ensures Durable(CutOff(sys, limits, FailureWritten(r)), limits)
  {
    CrashDuringWriteIsDurable(sys, limits, r, Failed);
    assert SetState(SetState(sys.s.runs, r, Running), r, Failed) == SetState(sys.s.runs, r, Failed);
  }

  // ----- stage removals -----

  lemma RelocatedStaysInTeam(d: Desk, from: StageId, to: StageId)
    requires TeamInv(d)
    ensures TeamInv(Relocate(d, from, to))
  {
    OwnAssignmentsKept(d, Relocate(d, from, to));
    KeptAssignmentsKeepTeamInv(d, Relocate(d, from, to));
  }

  lemma CrashAfterRelocationIsDurable(runs: seq<Run>, d: Desk, st: StageId, to: Option<StageId>)
    requires DurableDesk(runs, d)
    ensures DurableDesk(runs, StageCut(d, CardsRelocated(st, to)))
  {
    if CanRemoveStage(d, st, to) && to.Some? {
      RelocationKeepsBoardInv(d, st, to);
      RelocatedStaysInTeam(d, st, to.value);
    }
  }

  lemma RemoveStageKeepsBoards(d: Desk, st: StageId, to: Option<StageId>)
    ensures RemoveStage(d, st, to).boards.Keys == d.boards.Keys
  {}

  /** The stage is gone but the board's settings may still name it. */
  lemma CrashAfterStageDeletionIsDurable(runs: seq<Run>, d: Desk, st: StageId, to: Option<StageId>)
    requires DurableDesk(runs, d)
    ensures DurableDesk(runs, StageCut(d, StageDeleted(st, to)))
  {
    RemoveStageLosesNothing(d, st, to);
    RemoveStageKeepsBoards(d, st, to);
    RemoveStageKeepsAssignments(d, st, to);
    KeptAssignmentsKeepTeamInv(d, RemoveStage(d, st, to));
    OldSettingsAreDurable(runs, d, RemoveStage(d, st, to), StageCut(d, StageDeleted(st, to)));
  }

  lemma OldSettingsAreDurable(runs: seq<Run>, d: Desk, d1: Desk, d': Desk)
    requires DurableDesk(runs, d) && BoardInv(d1) && TeamInv(d1)
    requires d1.tasks.Keys == d.tasks.Keys && d1.links == d.links && d1.boards.Keys == d.boards.Keys
    requires forall t | t in d.tasks :: d1.tasks[t].activeRun == d.tasks[t].activeRun
    requires d' == d1.(boards := d.boards)
    ensures DurableDesk(runs, d')
  {
    assert forall b :: BoardStages(d', b) == BoardStages(d1, b);
    forall t | t in d'.tasks ensures InTeam(d', d'.tasks[t]) { assert InTeam(d1, d1.tasks[t]); }
  }

  // ----- moves -----

  /** Cuts of a move touch profiles, machines and the states of transfer rows only. */
  lemma MoveCutRows(s: Sched, c: Cut)
    requires TransferRows(s)
    requires c.ProfileSaved? || c.DestinationReserved? || c.ProfileApplied? || c.SourceReleased? || c.DestinationKept?
             || c.DestinationReleased? || c.LeaseFailed?
    ensures var s' := MoveCut(s, c);
            && s' == s.(profiles := s'.profiles, machines := s'.machines, transfers := s'.transfers)
            && s.profiles.Keys <= s'.profiles.Keys && TransferRows(s')
  {}

  lemma CrashDuringMoveIsDurable(s: Sched, limits: Limits, c: Cut)
    requires DurableRuns(s, limits)
    requires c.ProfileSaved? || c.DestinationReserved? || c.ProfileApplied? || c.SourceReleased? || c.DestinationKept?
             || c.DestinationReleased? || c.LeaseFailed?
    ensures DurableRuns(MoveCut(s, c), limits)
  {
    MoveCutRows(s, c);
  }

  // ----- every cut -----

  /** The part of timeliness a completion needs: the board of its task has a stage for it. */
  predicate CutFits(sys: Sys, c: Cut) {
    c.StateWritten? && c.state.Completed? && c.run in sys.d.links && sys.d.links[c.run].task in sys.d.tasks ==>
      DoneStage(sys.d, sys.d.tasks[sys.d.links[c.run].task].board).Some?
  }

  predicate CutsRun(c: Cut) { c.StateWritten? || c.RunningWritten? || c.SnapshotTaken? || c.FailureWritten? }

  predicate CutsStage(c: Cut) { c.CardsRelocated? || c.StageDeleted? }

  lemma RunCutsAreDurable(sys: Sys, limits: Limits, c: Cut)
    requires Inv(sys, limits) && CutsRun(c) && CutOff(sys, limits, c) != sys
    ensures Durable(CutOff(sys, limits, c), limits)
  {
    match c
    case StateWritten(r, state) => CrashDuringWriteIsDurable(sys, limits, r, state);
    case RunningWritten(r) => CrashAfterRunningIsDurable(sys, limits, r);
    case SnapshotTaken(r) => CrashAfterSnapshotIsDurable(sys, limits, r);
    case FailureWritten(r) => CrashAfterFailureIsDurable(sys, limits, r);
    case _ =>
  }

  lemma StageCutsAreDurable(runs: seq<Run>, d: Desk, c: Cut)
    requires DurableDesk(runs, d) && CutsStage(c)
    ensures DurableDesk(runs, StageCut(d, c))
  {
    if c.CardsRelocated? {
      CrashAfterRelocationIsDurable(runs, d, c.stage, c.to);
    } else {
      CrashAfterStageDeletionIsDurable(runs, d, c.stage, c.to);
    }
  }

  lemma OtherCutsAreDurable(sys: Sys, limits: Limits, c: Cut)
    requires Durable(sys, limits) && !CutsRun(c)
    ensures Durable(CutOff(sys, limits, c), limits)
  {
    if CutsStage(c) {
      StageCutsAreDurable(sys.s.runs, sys.d, c);
    } else {
      CrashDuringMoveIsDurable(sys.s, limits, c);
      MoveCutRows(sys.s, c);
    }
  }

  /** Every crash point is durable. */
  lemma CutsAreDurable(sys: Sys, limits: Limits, c: Cut)
    requires Inv(sys, limits)
    ensures Durable(CutOff(sys, limits, c), limits)
  {
    InvIsDurable(sys, limits);
    if !CutsRun(c) {
      OtherCutsAreDurable(sys, limits, c);
    } else if CutOff(sys, limits, c) != sys {
      RunCutsAreDurable(sys, limits, c);
    }
  }

  lemma NoCompletedActiveRun(runs: seq<Run>, d: Desk, t: TaskId)
    requires LinkInv(runs, d) && t in d.tasks && d.tasks[t].activeRun.Some?
    ensures var r := d.tasks[t].activeRun.value; r < |runs| && !runs[r].state.Terminal() && r in d.links && d.links[r].task == t
  {}

  /** Only a completed state can be left without its card's move. */
  lemma CutsLeaveCompletionsPlaced(sys: Sys, limits: Limits, c: Cut)
    requires Inv(sys, limits) && CutFits(sys, c)
    ensures CompletionsPlaced(CutOff(sys, limits, c))
  {
    var cut := CutOff(sys, limits, c);
    forall t | t in cut.d.tasks && cut.d.tasks[t].activeRun.Some? && cut.d.tasks[t].activeRun.value < |cut.s.runs|
               && cut.s.runs[cut.d.tasks[t].activeRun.value].state.Completed?
      ensures DoneStage(cut.d, cut.d.tasks[t].board).Some?
    {
      CutTask(sys, limits, c, t);
      NoCompletedActiveRun(sys.s.runs, sys.d, t);
    }
  }

  lemma RunCutRows(sys: Sys, limits: Limits, c: Cut)
    requires CutsRun(c)
    ensures var cut := CutOff(sys, limits, c);
            && cut.d == sys.d && |cut.s.runs| == |sys.s.runs|
            && (forall r: RunId | r < |sys.s.runs| && cut.s.runs[r].state.Completed? && !sys.s.runs[r].state.Completed? ::
                  c == StateWritten(r, Completed))
  {}

  lemma StageCutTasks(d: Desk, c: Cut)
    requires CutsStage(c) && BoardInv(d)
    ensures var d' := StageCut(d, c);
            && d'.tasks.Keys == d.tasks.Keys
            && forall t | t in d.tasks :: d'.tasks[t].activeRun == d.tasks[t].activeRun && d'.tasks[t].board == d.tasks[t].board
  {
    if c.StageDeleted? { RemoveStageLosesNothing(d, c.stage, c.to); }
  }

  /** A cut keeps the task's run, and writes `completed` only to the run it names. */
  lemma CutTask(sys: Sys, limits: Limits, c: Cut, t: TaskId)
    requires BoardInv(sys.d) && TransferRows(sys.s) && t in CutOff(sys, limits, c).d.tasks
    ensures var cut := CutOff(sys, limits, c);
            && t in sys.d.tasks && cut.d.tasks[t].activeRun == sys.d.tasks[t].activeRun && cut.d.tasks[t].board == sys.d.tasks[t].board
            && |cut.s.runs| == |sys.s.runs|
            && (forall r: RunId | r < |sys.s.runs| && cut.s.runs[r].state.Completed? && !sys.s.runs[r].state.Completed? ::
                  c == StateWritten(r, Completed) && cut.d == sys.d)
  {
    if CutsRun(c) {
      RunCutRows(sys, limits, c);
    } else if CutsStage(c) {
      StageCutTasks(sys.d, c);
    } else {
      MoveCutRows(sys.s, c);
    }
  }

  // ----- crashes of the start itself -----

  lemma StartedRunRows(s: Sched, limits: Limits, runs': seq<Run>)
    requires DurableRuns(s, limits) && |runs'| == |s.runs|
    requires forall r: RunId | r < |s.runs| :: runs'[r] == s.runs[r].(state := runs'[r].state)
                                               && (runs'[r].state == s.runs[r].state || runs'[r].state.Interrupted?)
    ensures DurableRuns(s.(runs := runs'), limits)
  {
    LineAgentsAfterBoot(s.runs, runs');
    assert QueuedRuns(runs') <= QueuedRuns(s.runs);
    Cardinality(QueuedRuns(runs'), QueuedRuns(s.runs));
  }

  lemma ReplayedTask(runs: seq<Run>, d: Desk, done: set<TaskId>, t: TaskId)
    requires LinkedRows(runs, d) && BoardInv(d) && t in d.tasks
    ensures var task' := ReplayedDesk(runs, d, done).tasks[t];
            && SameLockedFields(d.tasks[t], task') && task'.stage in BoardStages(d, task'.board)
            && (task'.activeRun == None || task'.activeRun == d.tasks[t].activeRun)
  {
    assert d.tasks[t].stage in BoardStages(d, d.tasks[t].board);
    ReconciledTask(runs, d, t);
    ReconciledStage(runs, d, t);
  }

  lemma ReplayIsDurable(runs: seq<Run>, d: Desk, done: set<TaskId>)
    requires DurableDesk(runs, d)
    ensures DurableDesk(runs, ReplayedDesk(runs, d, done))
  {
    var d' := ReplayedDesk(runs, d, done);
    forall t | t in d.tasks
      ensures SameLockedFields(d.tasks[t], d'.tasks[t]) && d'.tasks[t].stage in BoardStages(d, d'.tasks[t].board)
      ensures d'.tasks[t].activeRun == None || d'.tasks[t].activeRun == d.tasks[t].activeRun
    {
      ReplayedTask(runs, d, done, t);
    }
    SettledTasksAreDurable(runs, d, d');
  }

  lemma FullReplay(runs: seq<Run>, d: Desk)
    ensures ReplayedDesk(runs, d, d.tasks.Keys) == Reconciled(runs, d)
  {}

  lemma SettledTasksAreDurable(runs: seq<Run>, d: Desk, d': Desk)
    requires DurableDesk(runs, d) && d' == d.(tasks := d'.tasks) && d'.tasks.Keys == d.tasks.Keys
    requires forall t | t in d.tasks ::
               && SameLockedFields(d.tasks[t], d'.tasks[t]) && d'.tasks[t].stage in BoardStages(d, d'.tasks[t].board)
               && (d'.tasks[t].activeRun == None || d'.tasks[t].activeRun == d.tasks[t].activeRun)
    ensures DurableDesk(runs, d')
  {
    SettledTasksStayOnBoard(d, d');
    SettledTasksStayInTeam(d, d');
  }

  lemma SettledTasksStayInTeam(d: Desk, d': Desk)
    requires TeamInv(d) && d'.teams == d.teams && d'.tasks.Keys == d.tasks.Keys
    requires forall t | t in d.tasks :: SameLockedFields(d.tasks[t], d'.tasks[t])
    ensures TeamInv(d')
  {
    forall t | t in d'.tasks ensures InTeam(d', d'.tasks[t]) { assert InTeam(d, d.tasks[t]); }
  }

  lemma SettledTasksStayOnBoard(d: Desk, d': Desk)
    requires BoardInv(d) && d' == d.(tasks := d'.tasks) && d'.tasks.Keys == d.tasks.Keys
    requires forall t | t in d.tasks :: d'.tasks[t].board == d.tasks[t].board && d'.tasks[t].stage in BoardStages(d, d'.tasks[t].board)
    ensures BoardInv(d')
  {
    forall t | t in d'.tasks ensures d'.tasks[t].stage in BoardStages(d', d'.tasks[t].board) {
      assert d'.tasks[t].stage in BoardStages(d, d'.tasks[t].board);
    }
  }

  /** Every cut of the start is one of four pairs of tables. */
  lemma StartCutTables(sys: Sys, c: StartCut)
    ensures var runs := RecoverRuns(sys.s.runs, sys.d.links.Keys); var cut := StartCutOff(sys, c);
            && cut.s == sys.s.(runs := cut.s.runs, machines := cut.s.machines)
            && cut.s.runs == (if c.ActiveInterrupted? then StartedRuns(sys.s.runs) else runs)
            && cut.d == (match c
                         case Replayed(done) => ReplayedDesk(runs, sys.d, done)
                         case Released(n) => Reconciled(runs, sys.d)
                         case _ => sys.d)
  {}

  lemma RunsOfACut(s: Sched, limits: Limits, runs': seq<Run>, machines: map<MachineId, Machine>)
    requires DurableRuns(s.(runs := runs'), limits)
    ensures DurableRuns(s.(runs := runs', machines := machines), limits)
  {}

  lemma DeskOfACut(runs: seq<Run>, d: Desk, c: StartCut)
    requires DurableDesk(runs, d) && (c.Replayed? || c.Released?)
    ensures DurableDesk(runs, if c.Replayed? then ReplayedDesk(runs, d, c.tasks) else Reconciled(runs, d))
  {
    ReplayIsDurable(runs, d, if c.Replayed? then c.tasks else d.tasks.Keys);
    FullReplay(runs, d);
  }

  lemma SameLengthSameDesk(runs: seq<Run>, runs': seq<Run>, d: Desk)
    requires DurableDesk(runs, d) && |runs'| == |runs|
    ensures DurableDesk(runs', d)
  {}

  lemma StartCutsAreDurable(sys: Sys, limits: Limits, c: StartCut)
    requires Durable(sys, limits)
    ensures Durable(StartCutOff(sys, c), limits)
  {
    var cut := StartCutOff(sys, c);
    StartCutTables(sys, c);
    StartedRunRows(sys.s, limits, cut.s.runs);
    RunsOfACut(sys.s, limits, cut.s.runs, cut.s.machines);
    SameLengthSameDesk(sys.s.runs, cut.s.runs, sys.d);
    if c.Replayed? || c.Released? { DeskOfACut(cut.s.runs, sys.d, c); }
  }

  lemma StartCutsLeaveCompletionsPlaced(sys: Sys, limits: Limits, c: StartCut)
    requires LinkedRows(sys.s.runs, sys.d) && BoardInv(sys.d) && CompletionsPlaced(sys)
    ensures CompletionsPlaced(StartCutOff(sys, c))
  {
    var cut := StartCutOff(sys, c);
    forall t | t in cut.d.tasks && cut.d.tasks[t].activeRun.Some? && cut.d.tasks[t].activeRun.value < |cut.s.runs|
               && cut.s.runs[cut.d.tasks[t].activeRun.value].state.Completed?
      ensures DoneStage(cut.d, cut.d.tasks[t].board).Some?
    {
      StartCutTask(sys, c, t);
      SameBoardsSameDoneStage(sys.d, cut.d, sys.d.tasks[t].board);
    }
  }

  lemma StartCutRuns(sys: Sys, c: StartCut)
    ensures var cut := StartCutOff(sys, c);
            && |cut.s.runs| == |sys.s.runs|
            && (forall r: RunId | r < |sys.s.runs| && cut.s.runs[r].state.Completed? :: sys.s.runs[r].state.Completed?)
  {}

  lemma StartCutDesk(sys: Sys, c: StartCut)
    ensures var d' := StartCutOff(sys, c).d; var runs := RecoverRuns(sys.s.runs, sys.d.links.Keys);
            d' == sys.d || d' == Reconciled(runs, sys.d) || (c.Replayed? && d' == ReplayedDesk(runs, sys.d, c.tasks))
  {}

  lemma StartCutTask(sys: Sys, c: StartCut, t: TaskId)
    requires LinkedRows(sys.s.runs, sys.d) && BoardInv(sys.d) && t in StartCutOff(sys, c).d.tasks
    ensures var cut := StartCutOff(sys, c);
            && t in sys.d.tasks && cut.d.tasks[t].board == sys.d.tasks[t].board
            && cut.d.boards == sys.d.boards && cut.d.stages == sys.d.stages
            && (cut.d.tasks[t].activeRun == None || cut.d.tasks[t].activeRun == sys.d.tasks[t].activeRun)
            && |cut.s.runs| == |sys.s.runs|
            && (forall r: RunId | r < |sys.s.runs| && cut.s.runs[r].state.Completed? :: sys.s.runs[r].state.Completed?)
  {
    var runs := RecoverRuns(sys.s.runs, sys.d.links.Keys);
    StartCutRuns(sys, c);
    StartCutDesk(sys, c);
    assert LinkedRows(runs, sys.d);
    FullReplay(runs, sys.d);
    ReplayedTask(runs, sys.d, sys.d.tasks.Keys, t);
    if c.Replayed? { ReplayedTask(runs, sys.d, c.tasks, t); }
  }

  // ----- runs with crashes -----

  /** Starting again after crashes of the start itself. */
  function StartAgain(sys: Sys, cuts: seq<StartCut>): Sys
    decreases |cuts|
  {
    if cuts == [] then Boot(sys) else StartAgain(StartCutOff(sys, cuts[0]), cuts[1..])
  }

  /** However often the start is cut off, once it gets through every invariant holds. */
  lemma {:induction false} StartAgainRestoresInv(sys: Sys, limits: Limits, cuts: seq<StartCut>)
    requires Durable(sys, limits) && CompletionsPlaced(sys)
    ensures Inv(StartAgain(sys, cuts), limits)
    decreases |cuts|
  {
    if cuts == [] {
      BootRestoresInv(sys, limits);
    } else {
      StartCutsAreDurable(sys, limits, cuts[0]);
      StartCutsLeaveCompletionsPlaced(sys, limits, cuts[0]);
      StartAgainRestoresInv(StartCutOff(sys, cuts[0]), limits, cuts[1..]);
    }
  }

  /** A whole step, or a step cut off by a crash, followed by the starts it takes to come up again. */
  datatype Happening = Ran(step: Step) | Crashed(cut: Cut, starts: seq<StartCut>)

  function Happens(sys: Sys, limits: Limits, h: Happening): Sys {
    match h
    case Ran(step) => Next(sys, limits, step)
    case Crashed(cut, starts) => StartAgain(CutOff(sys, limits, cut), starts)
  }

  ghost predicate HappeningFits(sys: Sys, h: Happening) {
    match h
    case Ran(step) => Fits(sys, step)
    case Crashed(cut, starts) => CutFits(sys, cut)
  }

  lemma HappeningKeepsInv(sys: Sys, limits: Limits, h: Happening)
    requires Inv(sys, limits) && HappeningFits(sys, h)
    ensures Inv(Happens(sys, limits, h), limits)
  {
    match h
    case Ran(step) => StepKeepsInv(sys, limits, step);
    case Crashed(cut, starts) =>
      CutsAreDurable(sys, limits, cut);
      CutsLeaveCompletionsPlaced(sys, limits, cut);
      StartAgainRestoresInv(CutOff(sys, limits, cut), limits, starts);
  }

  function AllHappen(sys: Sys, limits: Limits, hs: seq<Happening>): Sys
    decreases |hs|
  {
    if hs == [] then sys else AllHappen(Happens(sys, limits, hs[0]), limits, hs[1..])
  }

  ghost predicate AllHappeningsFit(sys: Sys, limits: Limits, hs: seq<Happening>)
    decreases |hs|
  {
    hs == [] || (HappeningFits(sys, hs[0]) && AllHappeningsFit(Happens(sys, limits, hs[0]), limits, hs[1..]))
  }

  /** Every state reached by steps and by crashes between the statements of steps, also of the start. */
  lemma {:induction false} EveryStateAfterCrashes(sys: Sys, limits: Limits, hs: seq<Happening>)
    requires Inv(sys, limits) && AllHappeningsFit(sys, limits, hs)
    ensures Inv(AllHappen(sys, limits, hs), limits)
    decreases |hs|
  {
    if hs != [] {
      HappeningKeepsInv(sys, limits, hs[0]);
      EveryStateAfterCrashes(Happens(sys, limits, hs[0]), limits, hs[1..]);
    }
  }

  /** In particular from the empty database on. */
  lemma EveryStateFromTheFirstStart(sys: Sys, limits: Limits, hs: seq<Happening>)
    requires sys == Sys(EmptySched(), EmptyDesk()) && AllHappeningsFit(sys, limits, hs)
    ensures Inv(AllHappen(sys, limits, hs), limits)
  {
    FirstStart(sys, limits);
    EveryStateAfterCrashes(sys, limits, hs);
  }
}
