/** The coordinator as one transition system: every step of scheduler, moves, boards and teams, and
    restarts at any point. The invariants hold in every reachable state. */
module System {
  import opened Rows
  import opened Runs
  import opened Scheduler
  import opened Pump
  import opened Moves
  import opened Desk
  import opened Links
  import opened Teams
  import opened Boards
  import opened DeskSteps
  import opened Recovery

  datatype MoveStep =
    | MoveRequest(agent: AgentId, destination: MachineId)
    | ProfilePut(agent: AgentId, desired: Profile)
    | ProfileImport(agent: AgentId, desired: Profile)
    | ExportStarted(transfer: nat)
    | ExportDone(transfer: nat, checksum: nat)
    | ImportDone(transfer: nat, checksum: nat)
    | Verification(transfer: nat)
    | TransferFailed(transfer: nat)
    | TransferLeaseLost(transfer: nat)
    | ProfileRead(request: nat, agent: AgentId)
    | DraftSaved(request: nat)
    | MachineSeen(machine: MachineId, row: Machine)
    | AgentStopping(agent: AgentId, stopping: bool)

  function ApplyMove(s: Sched, m: MoveStep): Sched {
    match m
    case MoveRequest(a, destination) => RequestMove(s, a, destination)
    case ProfilePut(a, desired) => PutProfile(s, a, desired)
    case ProfileImport(a, desired) => if a in s.profiles then s else s.(profiles := s.profiles[a := desired])
    case ExportStarted(i) => StartExport(s, i)
    case ExportDone(i, checksum) => FinishExport(s, i, checksum)
    case ImportDone(i, checksum) => FinishImport(s, i, checksum)
    case Verification(i) => Verify(s, i)
    case TransferFailed(i) => FailTransfer(s, i)
    case TransferLeaseLost(i) => LoseTransferLease(s, i)
    case ProfileRead(request, a) => ReadProfile(s, request, a)
    case DraftSaved(request) => SaveDraft(s, request)
    case MachineSeen(machine, row) => s.(machines := s.machines[machine := row])
    case AgentStopping(a, stopping) => s.(stopping := if stopping then s.stopping + {a} else s.stopping - {a})
  }

  datatype Step =
    | NewRun(agent: AgentId, parent: ParentRef, depth: int)
    | TaskStart(task: TaskId, key: nat, revision: Option<nat>)
    | Admission(run: RunId)
    | RunWrite(run: RunId, state: RunState)
    | OfMoves(move: MoveStep)
    | OfDesk(edit: DeskStep)
    | Restart

  /** `setRun` with its listener. */
  function WriteRun(sys: Sys, r: RunId, state: RunState): Sys
    requires r < |sys.s.runs|
  {
    Sys(sys.s.(runs := SetState(sys.s.runs, r, state)), AfterWrite(sys.s.runs, sys.d, r, state))
  }

  /** One round of `pump`: the run becomes active, or fails at once without a profile; each write
      reaches the listener. */
  function AdmitRun(sys: Sys, r: RunId): Sys
    requires r < |sys.s.runs|
  {
    if sys.s.runs[r].agent !in sys.s.profiles then WriteRun(WriteRun(sys, r, Running), r, Failed)
    else Sys(Admit(sys.s, r), AfterWrite(sys.s.runs, sys.d, r, Running))
  }

  /** `start`: the checks, the new run, and its link, all or nothing. */
  function StartTask(sys: Sys, limits: Limits, t: TaskId, key: nat, revision: Option<nat>): Sys {
    var check := CheckStart(sys.s.runs, sys.d, t, key, revision);
    if !check.Go? then sys
    else
      var created := CreateRun(sys.s, limits, check.agent, NoParent, 0);
      if created.Refused? then sys
      else Sys(sys.s.(runs := created.runs), LinkRun(sys.d, t, key, created.run, check.stage))
  }

  predicate MayAdmit(sys: Sys, limits: Limits, r: RunId) {
    r < |sys.s.runs| && |ActiveRuns(sys.s.runs)| < MAX_ACTIVE && Eligible(sys.s, sys.d.links.Keys, limits, r)
  }

  function Next(sys: Sys, limits: Limits, step: Step): Sys {
    match step
    case NewRun(agent, parent, depth) =>
      var created := CreateRun(sys.s, limits, agent, parent, depth);
      if created.Created? then Sys(sys.s.(runs := created.runs), sys.d) else sys
    case TaskStart(t, key, revision) => StartTask(sys, limits, t, key, revision)
    case Admission(r) => if MayAdmit(sys, limits, r) then AdmitRun(sys, r) else sys
    case RunWrite(r, state) => if r < |sys.s.runs| && !state.Queued? then WriteRun(sys, r, state) else sys
    case OfMoves(m) => Sys(ApplyMove(sys.s, m), sys.d)
    case OfDesk(e) => Sys(sys.s, ApplyDesk(sys.s.runs, sys.d, e))
    case Restart => Boot(sys)
  }

  // ----- the hypotheses of the theorems -----

  /** What the code does not check by itself. State writes reach only runs that may still change, and
      a completion finds a stage; the machine of an admitted run has its occupants among the 100
      newest runs; a saved profile draft is current; a moved card gets an owner of its own team. */
  predicate WriteIsTimely(sys: Sys, r: RunId, state: RunState) {
    r < |sys.s.runs| && !state.Queued? ==>
      && (state.Active() ==> sys.s.runs[r].state.Active())
      && WriteFits(sys.s.runs, sys.d, r, state)
  }

  ghost predicate Fits(sys: Sys, step: Step) {
    match step
    case RunWrite(r, state) => WriteIsTimely(sys, r, state)
    case Admission(r) =>
      r < |sys.s.runs| && sys.s.runs[r].agent in sys.s.profiles ==> InWindow(sys.s, sys.s.profiles[sys.s.runs[r].agent].machine)
    case OfMoves(DraftSaved(request)) => DraftIsCurrent(sys.s, request)
    case OfDesk(e) => DeskStepFits(sys.d, e)
    case _ => true
  }

  /** On a run that has not ended, a write is timely as soon as the board can place completed work. */
  lemma LiveWritesAreTimely(sys: Sys, r: RunId, state: RunState)
    requires LinkInv(sys.s.runs, sys.d) && r < |sys.s.runs| && !sys.s.runs[r].state.Terminal()
    requires state.Terminal() || (sys.s.runs[r].state.Active() && state.Active())
    requires state.Completed? && r in sys.d.links ==> DoneStage(sys.d, sys.d.tasks[sys.d.links[r].task].board).Some?
    ensures WriteIsTimely(sys, r, state)
  {}

  // ----- the invariant -----

  ghost predicate SchedInv(s: Sched, linked: set<RunId>, limits: Limits) {
    Capacity(s.runs, linked, limits) && Records(s) && MachineLimits(s) && MoveInv(s) && Forest(s.runs)
  }

  ghost predicate DeskInv(runs: seq<Run>, d: Desk) {
    LinkInv(runs, d) && Numbered(d.links) && BoardInv(d) && TeamInv(d)
  }

  ghost predicate Inv(sys: Sys, limits: Limits) {
    SchedInv(sys.s, sys.d.links.Keys, limits) && DeskInv(sys.s.runs, sys.d)
  }

  ghost function EmptySched(): Sched { Sched([], map[], 0, map[], map[], map[], [], {}, map[]) }

  ghost function EmptyDesk(): Desk { Desk(map[], map[], map[], map[], map[]) }

  lemma EmptySchedInv(s: Sched, limits: Limits)
    requires s == EmptySched()
    ensures SchedInv(s, {}, limits)
  {
    assert ActiveRuns(s.runs) == {} && TopLevelRuns(s.runs) == {} && QueuedRuns(s.runs) == {};
    assert ActiveRuns(s.runs) * {} == {};
    assert Occupants(s, 0) == {};
  }

  lemma EmptyDeskInv(d: Desk)
    requires d == EmptyDesk()
    ensures DeskInv([], d)
  {
    forall t: TaskId ensures Gapless(d.links, t) {
      assert LinksOf(d.links, t) == {} && Attempts(d.links, t) == {};
    }
  }

  /** The empty database satisfies the invariant. */
  lemma FirstStart(sys: Sys, limits: Limits)
    requires sys == Sys(EmptySched(), EmptyDesk())
    ensures Inv(sys, limits)
  {
    EmptySchedInv(sys.s, limits);
    EmptyDeskInv(sys.d);
    assert sys.d.links.Keys == {};
  }

  // ----- runs -----

  lemma NewRowKeepsRecords(s: Sched, run: Run)
    requires Records(s) && MachineLimits(s) && run.state.Queued?
    ensures var s' := s.(runs := s.runs + [run]); Records(s') && MachineLimits(s')
  {
    var s' := s.(runs := s.runs + [run]);
    SetsAfterCreate(s.runs, run);
    assert forall m :: Occupants(s', m) == Occupants(s, m);
    forall r: RunId | r in ActiveRuns(s'.runs) ensures AdmittedBy(s', r) == AdmittedBy(s, r) {}
    assert forall m, r: RunId :: UsesDesktop(s', r, m) ==> UsesDesktop(s, r, m);
  }

  /** The row `createRun` adds. */
  function NewRow(runs: seq<Run>, agent: AgentId, parent: ParentRef, depth: int): Run {
    var p := Resolve(runs, parent);
    Run(agent, p, if p.Of? then runs[p.id].depth + 1 else depth, Queued)
  }

  /** A row that may be added: it waits, there is room in the queue, and it hangs well in the forest. */
  ghost predicate RowFits(runs: seq<Run>, limits: Limits, run: Run) {
    && run.state.Queued? && |QueuedRuns(runs)| < limits.queue && run.depth <= 2
    && (run.parent.Of? ==> && run.parent.id < |runs| && run.depth == runs[run.parent.id].depth + 1
                           && run.agent !in LineAgents(runs, run.parent.id))
  }

  lemma CreatedRowFits(s: Sched, limits: Limits, agent: AgentId, parent: ParentRef, depth: int)
    requires CreateRun(s, limits, agent, parent, depth).Created?
    ensures var created, run := CreateRun(s, limits, agent, parent, depth), NewRow(s.runs, agent, parent, depth);
            RowFits(s.runs, limits, run) && created == Created(|s.runs|, s.runs + [run])
  {}

  lemma RowKeepsSchedInv(s: Sched, linked: set<RunId>, limits: Limits, run: Run)
    requires SchedInv(s, linked, limits) && RowFits(s.runs, limits, run)
    ensures SchedInv(s.(runs := s.runs + [run]), linked, limits)
    ensures SchedInv(s.(runs := s.runs + [run]), linked + {|s.runs|}, limits)
  {
    CreateKeepsCapacity(s.runs, linked, limits, run);
    NewRowKeepsRecords(s, run);
    CreateKeepsMoveInv(s, run);
    ForestAfterCreate(s.runs, run);
  }

  lemma NewRowKeepsLinkInv(runs: seq<Run>, d: Desk, run: Run)
    requires LinkInv(runs, d)
    ensures LinkInv(runs + [run], d)
  {}

  lemma StartedKeepsDeskInv(runs: seq<Run>, d: Desk, t: TaskId, key: nat, revision: Option<nat>, run: Run)
    requires DeskInv(runs, d) && CheckStart(runs, d, t, key, revision).Go? && run.state.Queued?
    requires run.agent == CheckStart(runs, d, t, key, revision).agent
    ensures var d' := LinkRun(d, t, key, |runs|, CheckStart(runs, d, t, key, revision).stage);
            DeskInv(runs + [run], d') && d'.links.Keys == d.links.Keys + {|runs|}
  {
    var stage := CheckStart(runs, d, t, key, revision).stage;
    var d' := LinkRun(d, t, key, |runs|, stage);
    StartKeepsLinkInv(runs, d, t, key, revision, run);
    LinkRunKeepsNumbering(d, t, key, |runs|, stage);
    RunsKeepBoardInv(runs, d, |runs|, t, key, revision, |runs|);
    LinkingKeepsTeamInv(d, t, key, |runs|, stage);
  }

  lemma LinkingKeepsTeamInv(d: Desk, t: TaskId, key: nat, run: RunId, stage: StageId)
    requires TeamInv(d) && t in d.tasks
    ensures TeamInv(LinkRun(d, t, key, run, stage))
  {
    OwnAssignmentsKept(d, LinkRun(d, t, key, run, stage));
    KeptAssignmentsKeepTeamInv(d, LinkRun(d, t, key, run, stage));
  }

  lemma RowKeepsDeskInv(runs: seq<Run>, d: Desk, run: Run)
    requires DeskInv(runs, d)
    ensures DeskInv(runs + [run], d)
  {
    NewRowKeepsLinkInv(runs, d, run);
  }

  lemma StartKeepsInv(sys: Sys, limits: Limits, t: TaskId, key: nat, revision: Option<nat>)
    requires Inv(sys, limits)
    ensures Inv(StartTask(sys, limits, t, key, revision), limits)
  {
    var check := CheckStart(sys.s.runs, sys.d, t, key, revision);
    if check.Go? && CreateRun(sys.s, limits, check.agent, NoParent, 0).Created? {
      var run := NewRow(sys.s.runs, check.agent, NoParent, 0);
      CreatedRowFits(sys.s, limits, check.agent, NoParent, 0);
      StartedParts(sys, limits, t, key, revision);
      RowKeepsSchedInv(sys.s, sys.d.links.Keys, limits, run);
      StartedKeepsDeskInv(sys.s.runs, sys.d, t, key, revision, run);
    }
  }

  lemma StartedParts(sys: Sys, limits: Limits, t: TaskId, key: nat, revision: Option<nat>)
    requires var check := CheckStart(sys.s.runs, sys.d, t, key, revision);
             check.Go? && CreateRun(sys.s, limits, check.agent, NoParent, 0).Created?
    ensures var check := CheckStart(sys.s.runs, sys.d, t, key, revision);
            StartTask(sys, limits, t, key, revision) ==
              Sys(sys.s.(runs := sys.s.runs + [NewRow(sys.s.runs, check.agent, NoParent, 0)]),
                  LinkRun(sys.d, t, key, |sys.s.runs|, check.stage))
  {}

  lemma NewRunKeepsInv(sys: Sys, limits: Limits, agent: AgentId, parent: ParentRef, depth: int)
    requires Inv(sys, limits)
    ensures Inv(Next(sys, limits, NewRun(agent, parent, depth)), limits)
  {
    if CreateRun(sys.s, limits, agent, parent, depth).Created? {
      var run := NewRow(sys.s.runs, agent, parent, depth);
      CreatedRowFits(sys.s, limits, agent, parent, depth);
      RowKeepsSchedInv(sys.s, sys.d.links.Keys, limits, run);
      RowKeepsDeskInv(sys.s.runs, sys.d, run);
    }
  }

  lemma SyncKeepsDeskInv(runs: seq<Run>, d: Desk, r: RunId, state: RunState)
    requires DeskInv(runs, d) && r < |runs| && WriteFits(runs, d, r, state)
    ensures DeskInv(SetState(runs, r, state), AfterWrite(runs, d, r, state))
    ensures AfterWrite(runs, d, r, state).links == d.links
  {
    var d' := AfterWrite(runs, d, r, state);
    FittingWriteKeepsLinkInv(runs, d, r, state);
    RunsKeepBoardInv(SetState(runs, r, state), d, r, 0, 0, None, 0);
    OwnAssignmentsKept(d, d');
    KeptAssignmentsKeepTeamInv(d, d');
  }

  lemma WriteKeepsInv(sys: Sys, limits: Limits, r: RunId, state: RunState)
    requires Inv(sys, limits) && r < |sys.s.runs| && !state.Queued? && WriteIsTimely(sys, r, state)
    ensures Inv(WriteRun(sys, r, state), limits)
  {
    WriteKeepsCapacityIff(sys.s.runs, sys.d.links.Keys, limits, r, state);
    WriteKeepsMachineLimits(sys.s, r, state);
    WriteKeepsMoveInv(sys.s, r, state);
    ForestAfterState(sys.s.runs, r, state);
    SyncKeepsDeskInv(sys.s.runs, sys.d, r, state);
  }

  lemma AdmitKeepsSchedInv(s: Sched, linked: set<RunId>, limits: Limits, r: RunId)
    requires SchedInv(s, linked, limits) && r < |s.runs| && |ActiveRuns(s.runs)| < MAX_ACTIVE && Eligible(s, linked, limits, r)
    requires s.runs[r].agent in s.profiles ==> InWindow(s, s.profiles[s.runs[r].agent].machine)
    ensures SchedInv(Admit(s, r), linked, limits)
  {
    AdmitKeepsCapacity(s, linked, limits, r);
    EligibleAdmitKeepsMachineLimits(s, linked, limits, r);
    AdmitKeepsMoveInv(s, linked, limits, r);
    ForestAfterState(s.runs, r, Running);
    ForestAfterState(SetState(s.runs, r, Running), r, Failed);
  }

  lemma AdmitKeepsDeskInv(sys: Sys, r: RunId)
    requires DeskInv(sys.s.runs, sys.d) && r < |sys.s.runs| && sys.s.runs[r].state.Queued?
    ensures DeskInv(AdmitRun(sys, r).s.runs, AdmitRun(sys, r).d) && AdmitRun(sys, r).d.links == sys.d.links
  {
    SyncKeepsDeskInv(sys.s.runs, sys.d, r, Running);
    if sys.s.runs[r].agent !in sys.s.profiles {
      SyncKeepsDeskInv(SetState(sys.s.runs, r, Running), AfterWrite(sys.s.runs, sys.d, r, Running), r, Failed);
    }
  }

  lemma AdmitKeepsInv(sys: Sys, limits: Limits, r: RunId)
    requires Inv(sys, limits) && MayAdmit(sys, limits, r) && Fits(sys, Admission(r))
    ensures Inv(AdmitRun(sys, r), limits)
  {
    AdmitKeepsSchedInv(sys.s, sys.d.links.Keys, limits, r);
    AdmitKeepsDeskInv(sys, r);
  }

  // ----- moves -----

  ghost predicate SameRows(s: Sched, s': Sched) {
    s'.runs == s.runs && s'.startedAt == s.startedAt && s'.nextEvent == s.nextEvent && s'.snapshots == s.snapshots
  }

  lemma FailuresKeepRows(s: Sched, i: nat)
    ensures SameRows(s, FailTransfer(s, i)) && SameRows(s, LoseTransferLease(s, i))
  {}

  lemma VerifyKeepsRows(s: Sched, i: nat)
    ensures SameRows(s, Verify(s, i))
  {
    if Verify(s, i) != s {
      var t := s.transfers[i];
      if t.imported != t.exported || t.agent !in s.profiles {
        FailuresKeepRows(s, i);
      } else {
        var p := t.pending.(revision := s.profiles[t.agent].revision);
        FailuresKeepRows(s.(profiles := s.profiles[t.agent := p], machines := Reserve(s.machines, t.source, t.agent, false)), i);
      }
    }
  }

  lemma RequestsKeepRows(s: Sched, a: AgentId, destination: MachineId, desired: Profile)
    ensures SameRows(s, RequestMove(s, a, destination)) && SameRows(s, PutProfile(s, a, desired))
  {}

  lemma StagesKeepRows(s: Sched, i: nat, checksum: nat)
    ensures SameRows(s, StartExport(s, i)) && SameRows(s, FinishExport(s, i, checksum)) && SameRows(s, FinishImport(s, i, checksum))
  {}

  lemma MovesKeepRows(s: Sched, m: MoveStep)
    ensures SameRows(s, ApplyMove(s, m))
  {
    match m
    case MoveRequest(a, destination) => RequestsKeepRows(s, a, destination, Profile(0, 0, 0, NoDesktop, false));
    case ProfilePut(a, desired) => RequestsKeepRows(s, a, 0, desired);
    case ExportStarted(i) => StagesKeepRows(s, i, 0);
    case ExportDone(i, checksum) => StagesKeepRows(s, i, checksum);
    case ImportDone(i, checksum) => StagesKeepRows(s, i, checksum);
    case Verification(i) => VerifyKeepsRows(s, i);
    case TransferFailed(i) => FailuresKeepRows(s, i);
    case TransferLeaseLost(i) => FailuresKeepRows(s, i);
    case _ =>
  }

  lemma SameRowsSameLimits(s: Sched, s': Sched)
    requires SameRows(s, s') && Records(s) && MachineLimits(s)
    ensures Records(s') && MachineLimits(s')
  {
    assert forall m :: Occupants(s', m) == Occupants(s, m);
    forall r: RunId | r in ActiveRuns(s'.runs) ensures AdmittedBy(s', r) == AdmittedBy(s, r) {}
    assert forall m, r: RunId :: UsesDesktop(s', r, m) ==> UsesDesktop(s, r, m);
  }

  lemma QuietMoveSteps(s: Sched, m: MoveStep)
    requires MoveInv(s) && !m.Verification? && !m.DraftSaved?
    ensures MoveInv(ApplyMove(s, m)) && SameMachines(s, ApplyMove(s, m))
  {
    match m
    case MoveRequest(a, destination) => RequestKeepsMoveInv(s, a, destination);
    case ProfilePut(a, desired) => PutKeepsMoveInv(s, a, desired);
    case ExportStarted(i) => StagesKeepMoveInv(s, i, 0);
    case ExportDone(i, checksum) => StagesKeepMoveInv(s, i, checksum);
    case ImportDone(i, checksum) => StagesKeepMoveInv(s, i, checksum);
    case TransferFailed(i) => FailuresKeepMoveInv(s, i);
    case TransferLeaseLost(i) => FailuresKeepMoveInv(s, i);
    case ProfileRead(request, a) => DraftKeepsMoveInv(s, request, a);
    case _ => QuietStepKeepsMoveInv(s, ApplyMove(s, m));
  }

  /** Why an agent's assignment may change in this step: its move is verified, with equal checksums, or
      an outdated draft is saved. */
  ghost predicate Reassigns(s: Sched, m: MoveStep, a: AgentId, machine: MachineId) {
    if m.Verification? then
      && InStage(s, m.transfer, Verifying) && a == s.transfers[m.transfer].agent
      && s.transfers[m.transfer].imported == s.transfers[m.transfer].exported
      && machine == s.transfers[m.transfer].destination
    else m.DraftSaved? && !DraftIsCurrent(s, m.request)
  }

  /** Every step of a move keeps runs and moves apart, and an assignment changes only when a verified
      move ends, or when an outdated draft is saved. */
  lemma MoveStepsKeepMoveInv(s: Sched, m: MoveStep)
    requires MoveInv(s)
    ensures !m.DraftSaved? || DraftIsCurrent(s, m.request) ==> MoveInv(ApplyMove(s, m))
    ensures var s' := ApplyMove(s, m); forall a: AgentId | a in s.profiles ::
              && a in s'.profiles
              && (s'.profiles[a].machine != s.profiles[a].machine ==> Reassigns(s, m, a, s'.profiles[a].machine))
  {
    match m
    case Verification(i) => VerifyMovesOnlyOnMatch(s, i);
    case DraftSaved(request) => SavedDraftStep(s, request);
    case _ => QuietMoveSteps(s, m);
  }

  lemma SavedDraftStep(s: Sched, request: nat)
    requires MoveInv(s)
    ensures DraftIsCurrent(s, request) ==> MoveInv(SaveDraft(s, request)) && SameMachines(s, SaveDraft(s, request))
    ensures forall a: AgentId | a in s.profiles :: a in SaveDraft(s, request).profiles
  {
    DraftKeepsMoveInv(s, request, 0);
  }

  lemma MoveStepKeepsInv(sys: Sys, limits: Limits, m: MoveStep)
    requires Inv(sys, limits) && Fits(sys, OfMoves(m))
    ensures Inv(Sys(ApplyMove(sys.s, m), sys.d), limits)
  {
    MovesKeepRows(sys.s, m);
    SameRowsSameLimits(sys.s, ApplyMove(sys.s, m));
    MoveStepsKeepMoveInv(sys.s, m);
  }

  // ----- boards -----

  lemma DeskStepKeepsInv(sys: Sys, limits: Limits, e: DeskStep)
    requires Inv(sys, limits) && DeskStepFits(sys.d, e)
    ensures Inv(Sys(sys.s, ApplyDesk(sys.s.runs, sys.d, e)), limits)
  {
    StepsKeepLinks(sys.s.runs, sys.d, e);
    StepsKeepBoardInv(sys.s.runs, sys.d, e);
    StepsKeepTeamInv(sys.s.runs, sys.d, e);
    FewerLinksKeepCapacity(sys.s.runs, sys.d.links.Keys, ApplyDesk(sys.s.runs, sys.d, e).links.Keys, limits);
  }

  // ----- restarts -----

  /** Start numbers and snapshots name existing runs that were started. An active run may lack both: its
      `execute` may have stopped in between. */
  ghost predicate RecordRows(s: Sched) {
    && (forall r: RunId | r in s.startedAt :: r < |s.runs| && s.startedAt[r] < s.nextEvent)
    && (forall r: RunId | r in s.snapshots :: r < |s.runs|)
    && (forall r: RunId | r < |s.runs| && s.runs[r].state.Queued? :: r !in s.startedAt && r !in s.snapshots)
  }

  /** What holds at every crash point, also between two statements of a step. */
  ghost predicate Durable(sys: Sys, limits: Limits) { DurableRuns(sys.s, limits) && DurableDesk(sys.s.runs, sys.d) }

  ghost predicate DurableRuns(s: Sched, limits: Limits) {
    Forest(s.runs) && |QueuedRuns(s.runs)| <= limits.queue && RecordRows(s) && TransferRows(s)
  }

  ghost predicate DurableDesk(runs: seq<Run>, d: Desk) {
    LinkedRows(runs, d) && Numbered(d.links) && BoardInv(d) && TeamInv(d)
  }

  /** No task still waits for a completion its board cannot place. */
  predicate CompletionsPlaced(sys: Sys) {
    forall t | t in sys.d.tasks && sys.d.tasks[t].activeRun.Some? && sys.d.tasks[t].activeRun.value < |sys.s.runs|
      && sys.s.runs[sys.d.tasks[t].activeRun.value].state.Completed? :: DoneStage(sys.d, sys.d.tasks[t].board).Some?
  }

  lemma LineAgentsAfterBoot(runs: seq<Run>, runs': seq<Run>)
    requires Forest(runs) && |runs'| == |runs|
    requires forall r: RunId | r < |runs| :: runs'[r] == runs[r].(state := runs'[r].state)
    ensures Forest(runs')
  {
    forall r: RunId | r < |runs| && runs'[r].parent.Of? && runs'[r].parent.id < r
      ensures runs'[r].agent !in LineAgents(runs', runs'[r].parent.id)
    {
      LineAgentsStable(runs, runs', runs[r].parent.id);
    }
  }

  lemma BootedTeams(sys: Sys)
    requires LinkedRows(sys.s.runs, sys.d) && TeamInv(sys.d)
    ensures TeamInv(Boot(sys).d) && Boot(sys).d.links == sys.d.links
  {
    BootedTasks(sys);
    OwnAssignmentsKept(sys.d, Boot(sys).d);
    KeptAssignmentsKeepTeamInv(sys.d, Boot(sys).d);
  }

  lemma ReconciledStage(runs: seq<Run>, d: Desk, t: TaskId)
    requires LinkedRows(runs, d) && BoardInv(d) && t in d.tasks
    ensures var task' := Reconciled(runs, d).tasks[t];
            task'.board == d.tasks[t].board && task'.stage in BoardStages(d, task'.board)
  {
    assert d.tasks[t].stage in BoardStages(d, d.tasks[t].board);
    if HasEndedRun(runs, d.tasks[t]) {
      var r := d.tasks[t].activeRun.value;
      RunsKeepBoardInv(runs, d, r, 0, 0, None, 0);
      assert SyncRun(runs, d, r).tasks[t].stage in BoardStages(SyncRun(runs, d, r), d.tasks[t].board);
      assert BoardStages(SyncRun(runs, d, r), d.tasks[t].board) == BoardStages(d, d.tasks[t].board);
    }
  }

  lemma ReconciledKeepsBoardInv(runs: seq<Run>, d: Desk)
    requires LinkedRows(runs, d) && BoardInv(d)
    ensures BoardInv(Reconciled(runs, d))
  {
    var d' := Reconciled(runs, d);
    forall t | t in d'.tasks
      ensures d'.tasks[t].board in d'.boards && d'.tasks[t].stage in BoardStages(d', d'.tasks[t].board)
    {
      ReconciledStage(runs, d, t);
      assert BoardStages(d', d.tasks[t].board) == BoardStages(d, d.tasks[t].board);
    }
  }

  lemma BootedLinks(sys: Sys)
    requires LinkedRows(sys.s.runs, sys.d) && CompletionsPlaced(sys)
    ensures LinkInv(Boot(sys).s.runs, Boot(sys).d)
  {
    BootedRuns(sys);
    BootedTasks(sys);
  }

  lemma BootedRunTable(s: Sched, links: set<RunId>, limits: Limits, runs': seq<Run>)
    requires Forest(s.runs) && |QueuedRuns(s.runs)| <= limits.queue && runs' == RecoverRuns(s.runs, links)
    ensures Capacity(runs', links, limits) && Forest(runs') && ActiveRuns(runs') == {}
  {
    LineAgentsAfterBoot(s.runs, runs');
    assert ActiveRuns(runs') == {} && TopLevelRuns(runs') == {};
    assert ActiveRuns(runs') * links == {};
    assert QueuedRuns(runs') <= QueuedRuns(s.runs);
    Cardinality(QueuedRuns(runs'), QueuedRuns(s.runs));
  }

  lemma IdleSchedInv(s: Sched)
    requires ActiveRuns(s.runs) == {} && TransferRows(s)
    ensures MachineLimits(s) && MoveInv(s)
  {
    forall r: RunId | r < |s.runs| ensures !s.runs[r].state.Active() { assert r !in ActiveRuns(s.runs); }
    assert forall m :: Occupants(s, m) == {};
  }

  lemma BootedRecords(s: Sched, s': Sched)
    requires RecordRows(s) && s'.startedAt == s.startedAt && s'.nextEvent == s.nextEvent && s'.snapshots == s.snapshots
    requires |s'.runs| == |s.runs| && ActiveRuns(s'.runs) == {}
    requires forall r: RunId | r < |s.runs| && s'.runs[r].state.Queued? :: s.runs[r].state.Queued?
    ensures Records(s')
  {
    forall r: RunId | r < |s'.runs| ensures !s'.runs[r].state.Active() { assert r !in ActiveRuns(s'.runs); }
  }

  lemma BootedSched(sys: Sys, limits: Limits)
    requires Durable(sys, limits)
    ensures SchedInv(Boot(sys).s, sys.d.links.Keys, limits)
  {
    var s' := Boot(sys).s;
    BootedRunTable(sys.s, sys.d.links.Keys, limits, s'.runs);
    BootedRecords(sys.s, s');
    IdleSchedInv(s');
  }

  /** Whatever a crash leaves behind, the next start restores every invariant. */
  lemma BootRestoresInv(sys: Sys, limits: Limits)
    requires Durable(sys, limits) && CompletionsPlaced(sys)
    ensures Inv(Boot(sys), limits)
  {
    BootedTeams(sys);
    assert LinkedRows(Boot(sys).s.runs, sys.d) by { BootedRuns(sys); }
    ReconciledKeepsBoardInv(Boot(sys).s.runs, sys.d);
    BootedLinks(sys);
    BootedSched(sys, limits);
  }

  lemma InvIsDurable(sys: Sys, limits: Limits)
    requires Inv(sys, limits)
    ensures Durable(sys, limits) && CompletionsPlaced(sys)
  {
    LinkInvHasLinkedRows(sys.s.runs, sys.d);
  }

  // ----- every reachable state -----

  lemma RestartKeepsInv(sys: Sys, limits: Limits)
    requires Inv(sys, limits)
    ensures Inv(Boot(sys), limits)
  {
    InvIsDurable(sys, limits);
    BootRestoresInv(sys, limits);
  }

  lemma AdmissionStepKeepsInv(sys: Sys, limits: Limits, r: RunId)
    requires Inv(sys, limits) && Fits(sys, Admission(r))
    ensures Inv(Next(sys, limits, Admission(r)), limits)
  {
    if MayAdmit(sys, limits, r) { AdmitKeepsInv(sys, limits, r); }
  }

  lemma WriteStepKeepsInv(sys: Sys, limits: Limits, r: RunId, state: RunState)
    requires Inv(sys, limits) && Fits(sys, RunWrite(r, state))
    ensures Inv(Next(sys, limits, RunWrite(r, state)), limits)
  {
    if r < |sys.s.runs| && !state.Queued? { WriteKeepsInv(sys, limits, r, state); }
  }

  lemma StepKeepsInv(sys: Sys, limits: Limits, step: Step)
    requires Inv(sys, limits) && Fits(sys, step)
    ensures Inv(Next(sys, limits, step), limits)
  {
    match step
    case NewRun(agent, parent, depth) => NewRunKeepsInv(sys, limits, agent, parent, depth);
    case TaskStart(t, key, revision) => StartKeepsInv(sys, limits, t, key, revision);
    case Admission(r) => AdmissionStepKeepsInv(sys, limits, r);
    case RunWrite(r, state) => WriteStepKeepsInv(sys, limits, r, state);
    case OfMoves(m) => MoveStepKeepsInv(sys, limits, m);
    case OfDesk(e) => DeskStepKeepsInv(sys, limits, e);
    case Restart => RestartKeepsInv(sys, limits);
  }

  function RunAll(sys: Sys, limits: Limits, steps: seq<Step>): Sys
    decreases |steps|
  {
    if steps == [] then sys else RunAll(Next(sys, limits, steps[0]), limits, steps[1..])
  }

  ghost predicate AllFit(sys: Sys, limits: Limits, steps: seq<Step>)
    decreases |steps|
  {
    steps == [] || (Fits(sys, steps[0]) && AllFit(Next(sys, limits, steps[0]), limits, steps[1..]))
  }

  /** In every state reached by fitting steps: at most four runs are active, two of them top-level,
      one per agent, and the task and queue limits hold; machine concurrency and desktops are
      respected; no agent works while it is being moved, and active runs sit on their agent's machine;
      delegation is a shallow forest without cycles; tasks and runs agree, attempts are gapless, tasks
      sit on their board and in their team. */
  lemma {:induction false} EveryReachableState(sys: Sys, limits: Limits, steps: seq<Step>)
    requires Inv(sys, limits) && AllFit(sys, limits, steps)
    ensures Inv(RunAll(sys, limits, steps), limits)
    decreases |steps|
  {
    if steps != [] {
      StepKeepsInv(sys, limits, steps[0]);
      EveryReachableState(Next(sys, limits, steps[0]), limits, steps[1..]);
    }
  }
}
