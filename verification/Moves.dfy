/** Moving an agent between computers: the transfer request, the profile PUT branch, the stages of
    `performTransfer`, and the profile saves that do not move anything. */
module Moves {
  import opened Rows
  import opened Runs
  import opened Scheduler

  // ----- reservations -----

  predicate CanReserve(machines: map<MachineId, Machine>, machine: MachineId, agent: AgentId, reserve: bool) {
    && machine in machines
    && (reserve ==> !machines[machine].revoked
                    && (machines[machine].reserved == None || machines[machine].reserved == Some(agent)))
  }

  /** `reserve`; releasing leaves another agent's reservation alone. */
  function Reserve(machines: map<MachineId, Machine>, machine: MachineId, agent: AgentId, reserve: bool): map<MachineId, Machine> {
    if machine !in machines then machines
    else
      var row := machines[machine];
      var reserved := if reserve then Some(agent) else if row.reserved == Some(agent) then None else row.reserved;
      machines[machine := row.(reserved := reserved)]
  }

  // ----- starting a move -----

  function AddTransfer(s: Sched, agent: AgentId, pending: Profile): Sched
    requires agent in s.profiles
  {
    s.(transfers := s.transfers +
       [Transfer(agent, s.profiles[agent].machine, pending.machine, Waiting, pending, None, None, true)])
  }

  /** The transfer request: the current profile, sent to another machine. */
  function RequestMove(s: Sched, agent: AgentId, destination: MachineId): Sched {
    if agent !in s.profiles || Transferring(s, agent) || s.profiles[agent].machine == destination
       || !CanAssign(s.machines, destination, agent) then s
    else AddTransfer(s, agent, s.profiles[agent].(machine := destination))
  }

  /** The profile PUT: a profile naming another machine is saved with the old computer settings and
      starts a transfer; any other profile is saved as it is. */
  function PutProfile(s: Sched, agent: AgentId, desired: Profile): Sched {
    var revision := if agent in s.profiles then s.profiles[agent].revision else 0;
    if Transferring(s, agent) || !CanAssign(s.machines, desired.machine, agent) || desired.revision != revision then s
    else
      var machines := Reserve(s.machines, desired.machine, agent, desired.reserve);
      if agent in s.profiles && s.profiles[agent].machine != desired.machine then
        var saved := s.profiles[agent].(revision := revision + 1);
        AddTransfer(s.(profiles := s.profiles[agent := saved], machines := machines), agent, desired.(revision := revision + 1))
      else s.(profiles := s.profiles[agent := desired.(revision := revision + 1)], machines := machines)
  }

  // ----- performTransfer -----

  predicate InStage(s: Sched, i: nat, state: TransferState) {
    i < |s.transfers| && s.transfers[i].live && s.transfers[i].state == state
  }

  function SetTransfer(s: Sched, i: nat, t: Transfer): Sched
    requires i < |s.transfers|
  {
    s.(transfers := s.transfers[i := t])
  }

  /** The wait for `agentBusy` ends and the stage becomes exporting, in one step. */
  function StartExport(s: Sched, i: nat): Sched {
    if InStage(s, i, Waiting) && !AgentBusy(s.runs, s.transfers[i].agent)
    then SetTransfer(s, i, s.transfers[i].(state := Exporting)) else s
  }

  function FinishExport(s: Sched, i: nat, checksum: nat): Sched {
    if InStage(s, i, Exporting)
    then SetTransfer(s, i, s.transfers[i].(state := Importing, exported := Some(checksum))) else s
  }

  function FinishImport(s: Sched, i: nat, checksum: nat): Sched {
    if InStage(s, i, Importing)
    then SetTransfer(s, i, s.transfers[i].(state := Verifying, imported := Some(checksum))) else s
  }

  /** Checksums agree: the pending profile is applied under the current revision, the reservations
      follow, and the move is done. A reservation that is refused only then still fails the row. */
  function Verify(s: Sched, i: nat): Sched {
    if !InStage(s, i, Verifying) then s
    else
      var t := s.transfers[i];
      if t.imported != t.exported || t.agent !in s.profiles then FailTransfer(s, i)
      else
        var applied := s.(profiles := s.profiles[t.agent := t.pending.(revision := s.profiles[t.agent].revision)],
                          machines := Reserve(s.machines, t.source, t.agent, false));
        if CanReserve(applied.machines, t.destination, t.agent, t.pending.reserve) then
          SetTransfer(applied.(machines := Reserve(applied.machines, t.destination, t.agent, t.pending.reserve)),
                      i, t.(state := Moved, live := false))
        else FailTransfer(applied, i)
  }

  /** The catch block: release the destination, mark the row failed. */
  function FailTransfer(s: Sched, i: nat): Sched {
    if i < |s.transfers| && s.transfers[i].live then
      var t := s.transfers[i];
      SetTransfer(s.(machines := Reserve(s.machines, t.destination, t.agent, false)), i, t.(state := Abandoned, live := false))
    else s
  }

  /** `reconcileLeases` gives up on the export or import command of a transfer. */
  function LoseTransferLease(s: Sched, i: nat): Sched {
    if i < |s.transfers| && s.transfers[i].state.Moving() then
      var t := s.transfers[i];
      SetTransfer(s.(machines := Reserve(s.machines, t.destination, t.agent, false)), i, t.(state := Abandoned))
    else s
  }

  // ----- the credential route -----

  /** The route reads the profile before it waits for the request body ... */
  function ReadProfile(s: Sched, request: nat, agent: AgentId): Sched {
    if agent in s.profiles then s.(drafts := s.drafts[request := (agent, s.profiles[agent])]) else s
  }

  /** ... and afterwards saves what it read, with another model, if the revision still matches. */
  function SaveDraft(s: Sched, request: nat): Sched {
    if request !in s.drafts then s
    else
      var (agent, draft) := s.drafts[request];
      var rest := s.(drafts := s.drafts - {request});
      if agent in s.profiles && s.profiles[agent].revision == draft.revision
      then rest.(profiles := s.profiles[agent := draft.(revision := draft.revision + 1)]) else rest
  }

  /** The draft still names the agent's machine, or will be refused as outdated. */
  predicate DraftIsCurrent(s: Sched, request: nat) {
    request in s.drafts && s.drafts[request].0 in s.profiles ==>
      var (agent, draft) := s.drafts[request];
      s.profiles[agent].revision == draft.revision ==> s.profiles[agent].machine == draft.machine
  }

  // ----- invariants -----

  /** Every active run works on the machine its agent is assigned to. */
  ghost predicate Placement(s: Sched) {
    forall r: RunId | r < |s.runs| && s.runs[r].state.Active() ::
      && r in s.snapshots && s.runs[r].agent in s.profiles
      && s.snapshots[r].machine == s.profiles[s.runs[r].agent].machine
  }

  /** While an agent's files are being moved it has no active run. */
  ghost predicate MovesAreQuiet(s: Sched) {
    forall i | 0 <= i < |s.transfers| && s.transfers[i].state.Moving() :: !AgentBusy(s.runs, s.transfers[i].agent)
  }

  ghost predicate TransferRows(s: Sched) {
    forall i | 0 <= i < |s.transfers| ::
      && s.transfers[i].agent in s.profiles
      && s.transfers[i].pending.machine == s.transfers[i].destination
  }

  ghost predicate MoveInv(s: Sched) { Placement(s) && MovesAreQuiet(s) && TransferRows(s) }

  ghost predicate SameMachines(s: Sched, s': Sched) {
    forall a: AgentId | a in s.profiles :: a in s'.profiles && s'.profiles[a].machine == s.profiles[a].machine
  }

  /** Steps that touch neither runs, snapshots nor assigned machines keep the invariant when every
      row that enters a moving stage belongs to an idle agent. */
  lemma QuietStepKeepsMoveInv(s: Sched, s': Sched)
    requires MoveInv(s) && s'.runs == s.runs && s'.snapshots == s.snapshots && SameMachines(s, s')
    requires TransferRows(s')
    requires forall i | 0 <= i < |s'.transfers| && s'.transfers[i].state.Moving() :: !AgentBusy(s.runs, s'.transfers[i].agent)
    ensures MoveInv(s')
  {}

  lemma RequestKeepsMoveInv(s: Sched, agent: AgentId, destination: MachineId)
    requires MoveInv(s)
    ensures var s' := RequestMove(s, agent, destination); MoveInv(s') && SameMachines(s, s')
  {
    QuietStepKeepsMoveInv(s, RequestMove(s, agent, destination));
  }

  lemma PutKeepsMoveInv(s: Sched, agent: AgentId, desired: Profile)
    requires MoveInv(s)
    ensures var s' := PutProfile(s, agent, desired); MoveInv(s') && SameMachines(s, s')
  {
    QuietStepKeepsMoveInv(s, PutProfile(s, agent, desired));
  }

  /** Changing one transfer row and any machine rows is quiet unless the row starts moving files
      while its agent works. */
  lemma RowStepKeepsMoveInv(s: Sched, machines: map<MachineId, Machine>, i: nat, t: Transfer)
    requires MoveInv(s) && i < |s.transfers|
    requires t.agent == s.transfers[i].agent && t.pending == s.transfers[i].pending && t.destination == s.transfers[i].destination
    requires t.state.Moving() ==> s.transfers[i].state.Moving() || !AgentBusy(s.runs, t.agent)
    ensures var s' := SetTransfer(s.(machines := machines), i, t); MoveInv(s') && SameMachines(s, s')
  {
    QuietStepKeepsMoveInv(s, SetTransfer(s.(machines := machines), i, t));
  }

  lemma StagesKeepMoveInv(s: Sched, i: nat, checksum: nat)
    requires MoveInv(s)
    ensures var s' := StartExport(s, i); MoveInv(s') && SameMachines(s, s')
    ensures var s' := FinishExport(s, i, checksum); MoveInv(s') && SameMachines(s, s')
    ensures var s' := FinishImport(s, i, checksum); MoveInv(s') && SameMachines(s, s')
  {
    if i < |s.transfers| {
      var t := s.transfers[i];
      if InStage(s, i, Waiting) && !AgentBusy(s.runs, t.agent) { RowStepKeepsMoveInv(s, s.machines, i, t.(state := Exporting)); }
      if InStage(s, i, Exporting) { RowStepKeepsMoveInv(s, s.machines, i, t.(state := Importing, exported := Some(checksum))); }
      if InStage(s, i, Importing) { RowStepKeepsMoveInv(s, s.machines, i, t.(state := Verifying, imported := Some(checksum))); }
    }
  }

  lemma FailuresKeepMoveInv(s: Sched, i: nat)
    requires MoveInv(s)
    ensures var s' := FailTransfer(s, i); MoveInv(s') && SameMachines(s, s')
    ensures var s' := LoseTransferLease(s, i); MoveInv(s') && SameMachines(s, s')
  {
    if i < |s.transfers| {
      var t := s.transfers[i];
      var released := Reserve(s.machines, t.destination, t.agent, false);
      RowStepKeepsMoveInv(s, released, i, t.(state := Abandoned, live := false));
      RowStepKeepsMoveInv(s, released, i, t.(state := Abandoned));
    }
  }

  /** Reassigning an idle agent disturbs no active run. */
  lemma ReassignKeepsMoveInv(s: Sched, agent: AgentId, p: Profile, machines: map<MachineId, Machine>)
    requires MoveInv(s) && agent in s.profiles && !AgentBusy(s.runs, agent)
    ensures MoveInv(s.(profiles := s.profiles[agent := p], machines := machines))
  {
    forall r: RunId | r < |s.runs| && s.runs[r].state.Active() ensures s.runs[r].agent != agent {}
  }

  /** Verification reassigns the moved agent, to the destination, and only when the checksum of the
      import equals the checksum of the export; nobody else's assignment changes. */
  lemma VerifyMovesOnlyOnMatch(s: Sched, i: nat)
    requires MoveInv(s)
    ensures var s' := Verify(s, i);
            && MoveInv(s')
            && forall a: AgentId | a in s.profiles ::
                 && a in s'.profiles
                 && (s'.profiles[a].machine != s.profiles[a].machine ==>
                       && InStage(s, i, Verifying) && a == s.transfers[i].agent
                       && s.transfers[i].imported == s.transfers[i].exported
                       && s'.profiles[a].machine == s.transfers[i].destination)
  {
    if InStage(s, i, Verifying) {
      var t := s.transfers[i];
      if t.imported != t.exported || t.agent !in s.profiles {
        FailuresKeepMoveInv(s, i);
      } else {
        assert !AgentBusy(s.runs, t.agent);
        var p := t.pending.(revision := s.profiles[t.agent].revision);
        var freed := Reserve(s.machines, t.source, t.agent, false);
        ReassignKeepsMoveInv(s, t.agent, p, freed);
        var applied := s.(profiles := s.profiles[t.agent := p], machines := freed);
        FailuresKeepMoveInv(applied, i);
        RowStepKeepsMoveInv(applied, Reserve(freed, t.destination, t.agent, t.pending.reserve), i, t.(state := Moved, live := false));
      }
    }
  }

  /** A reservation changes its own machine only: the agent has it afterwards, or has it no more. */
  lemma ReservedMachines(machines: map<MachineId, Machine>, m: MachineId, agent: AgentId, wanted: bool, other: MachineId)
    ensures var machines' := Reserve(machines, m, agent, wanted);
            && machines'.Keys == machines.Keys
            && (other in machines && other != m ==> machines'[other] == machines[other])
            && (m in machines && !wanted ==> machines'[m].reserved != Some(agent))
            && (wanted && CanReserve(machines, m, agent, wanted) ==> m in machines' && machines'[m].reserved == Some(agent))
  {}

  /** A verified move with equal checksums always reassigns the agent, under its current revision. The
      row ends as moved exactly if the destination can still be reserved as wanted: otherwise it is
      marked failed although the agent has been reassigned. */
  lemma VerifiedMoveOutcome(s: Sched, i: nat)
    requires InStage(s, i, Verifying) && s.transfers[i].agent in s.profiles
    requires s.transfers[i].imported == s.transfers[i].exported
    ensures var t, s' := s.transfers[i], Verify(s, i);
            && s'.profiles == s.profiles[t.agent := t.pending.(revision := s.profiles[t.agent].revision)]
            && !s'.transfers[i].live && s'.transfers == s.transfers[i := s'.transfers[i]]
            && (s'.transfers[i].state.Moved? <==>
                  CanReserve(Reserve(s.machines, t.source, t.agent, false), t.destination, t.agent, t.pending.reserve))
            && (!s'.transfers[i].state.Moved? ==> s'.transfers[i].state.Abandoned?)
            && (s'.transfers[i].state.Moved? && t.pending.reserve ==> s'.machines[t.destination].reserved == Some(t.agent))
            && (t.source in s'.machines && t.source != t.destination ==> s'.machines[t.source].reserved != Some(t.agent))
  {
    var t := s.transfers[i];
    var released := Reserve(s.machines, t.source, t.agent, false);
    ReservedMachines(released, t.destination, t.agent, t.pending.reserve, t.source);
    ReservedMachines(released, t.destination, t.agent, false, t.source);
    ReservedMachines(s.machines, t.source, t.agent, false, t.source);
  }

  /** An agent that reserves its machine, on machine 0. */
  ghost function BeforeTheRevocation(): Sched {
    Sched([], map[], 0, map[], map[0 := Profile(1, 0, 1, NoDesktop, true)],
          map[0 := Machine(true, false, Some(0)), 1 := Machine(true, false, None)], [], {}, map[])
  }

  function MovedToVerification(s: Sched): Sched {
    FinishImport(FinishExport(StartExport(RequestMove(s, 0, 1), 0), 0, 7), 0, 7)
  }

  lemma MoveBeforeTheRevocation(s: Sched)
    requires s == BeforeTheRevocation()
    ensures var p := Profile(1, 1, 1, NoDesktop, true);
            MovedToVerification(s) == s.(transfers := [Transfer(0, 0, 1, Verifying, p, Some(7), Some(7), true)])
  {
    assert RequestMove(s, 0, 1).transfers == [Transfer(0, 0, 1, Waiting, Profile(1, 1, 1, NoDesktop, true), None, None, true)];
  }

  /** The destination is revoked while the files are verified: the row ends as failed, with the message that
      the source assignment was preserved, and the agent is assigned to the revoked machine. */
  lemma FailedTransferMayReassign(s: Sched)
    requires s == BeforeTheRevocation()
    ensures var verifying := MovedToVerification(s);
            var revoked := verifying.(machines := verifying.machines[1 := Machine(true, true, None)]);
            var done := Verify(revoked, 0);
            && MoveInv(s) && |done.transfers| == 1 && done.transfers[0].state.Abandoned?
            && s.profiles[0].machine == 0 && done.profiles[0].machine == 1 && done.machines[1].revoked
  {
    MoveBeforeTheRevocation(s);
    var verifying := MovedToVerification(s);
    VerifiedMoveOutcome(verifying.(machines := verifying.machines[1 := Machine(true, true, None)]), 0);
  }

  lemma SavedDraftKeepsMoveInv(s: Sched, request: nat)
    requires MoveInv(s) && DraftIsCurrent(s, request)
    ensures var s' := SaveDraft(s, request); MoveInv(s') && SameMachines(s, s')
  {
    var s' := SaveDraft(s, request);
    assert SameMachines(s, s');
    QuietStepKeepsMoveInv(s, s');
  }

  lemma DraftKeepsMoveInv(s: Sched, request: nat, agent: AgentId)
    requires MoveInv(s)
    ensures var s' := ReadProfile(s, request, agent); MoveInv(s') && SameMachines(s, s')
    ensures DraftIsCurrent(s, request) ==> var s' := SaveDraft(s, request); MoveInv(s') && SameMachines(s, s')
  {
    QuietStepKeepsMoveInv(s, ReadProfile(s, request, agent));
    if DraftIsCurrent(s, request) { SavedDraftKeepsMoveInv(s, request); }
  }

  /** Saving an outdated draft undoes a finished move: the assignment survives exactly when the draft
      is current. */
  lemma SaveDraftKeepsMachinesIff(s: Sched, request: nat)
    ensures SameMachines(s, SaveDraft(s, request)) <==> DraftIsCurrent(s, request)
  {
    if request in s.drafts {
      var (agent, draft) := s.drafts[request];
      assert agent in s.profiles ==> agent in SaveDraft(s, request).profiles;
    }
  }

  /** Active runs stay on their agent's machine exactly when the draft is current or the agent idle. */
  lemma SaveDraftKeepsPlacementIff(s: Sched, request: nat)
    requires Placement(s)
    ensures Placement(SaveDraft(s, request)) <==>
            DraftIsCurrent(s, request) || !AgentBusy(s.runs, s.drafts[request].0)
  {
    var s' := SaveDraft(s, request);
    if !DraftIsCurrent(s, request) {
      var agent := s.drafts[request].0;
      if AgentBusy(s.runs, agent) {
        var r: RunId :| r < |s.runs| && s.runs[r].agent == agent && s.runs[r].state.Active();
        assert s'.runs[r].state.Active() && s'.snapshots[r].machine != s'.profiles[agent].machine;
      } else {
        forall r: RunId | r < |s'.runs| && s'.runs[r].state.Active()
          ensures r in s'.snapshots && s'.runs[r].agent in s'.profiles
          ensures s'.snapshots[r].machine == s'.profiles[s'.runs[r].agent].machine
        {
          assert s.runs[r].agent != agent;
        }
      }
    }
  }

  /** An agent on machine 0 with one queued run. */
  ghost function BeforeTheRace(): Sched {
    Sched([Run(0, NoParent, 0, Queued)], map[], 0, map[], map[0 := Profile(1, 0, 1, NoDesktop, false)],
          map[0 := Machine(true, false, None), 1 := Machine(true, false, None)], [], {}, map[])
  }

  /** The move of that agent to machine 1, after a request has read its profile. */
  function MovedMeanwhile(s: Sched): Sched {
    Verify(FinishImport(FinishExport(StartExport(RequestMove(ReadProfile(s, 0, 0), 0, 1), 0), 0, 7), 0, 7), 0)
  }

  lemma MoveOfTheRace(s: Sched)
    requires s == BeforeTheRace()
    ensures var p, s' := Profile(1, 1, 1, NoDesktop, false), MovedMeanwhile(s);
            && s' == s.(profiles := map[0 := p], drafts := map[0 := (0, s.profiles[0])],
                        transfers := [Transfer(0, 0, 1, Moved, p, Some(7), Some(7), false)])
  {
    var s1 := RequestMove(ReadProfile(s, 0, 0), 0, 1);
    assert s1.transfers == [Transfer(0, 0, 1, Waiting, Profile(1, 1, 1, NoDesktop, false), None, None, true)];
    assert MovedMeanwhile(s).machines == s.machines;
  }

  /** A credential change that is read before a move and saved after it puts the agent back on its
      old machine, while a run admitted in between works on the new one. */
  lemma StaleDraftUndoesAMove(s: Sched)
    requires s == BeforeTheRace()
    ensures AfterTheMove(MovedMeanwhile(s))
    ensures var moved := MovedMeanwhile(s); var working := Admit(moved, 0); var saved := SaveDraft(working, 0);
            && MoveInv(s) && MoveInv(working) && Eligible(moved, {}, Limits(100, 3), 0)
            && working.profiles[0].machine == 1 && saved.profiles[0].machine == 0
            && !Placement(saved)
  {
    MoveOfTheRace(s);
    WorkAfterTheMove(MovedMeanwhile(s));
  }

  /** After the move the agent is on machine 1, and the request still holds the older profile. */
  ghost predicate AfterTheMove(moved: Sched) {
    && moved.runs == [Run(0, NoParent, 0, Queued)] && moved.snapshots == map[] && moved.startedAt == map[]
    && moved.profiles == map[0 := Profile(1, 1, 1, NoDesktop, false)] && moved.stopping == {}
    && moved.machines == map[0 := Machine(true, false, None), 1 := Machine(true, false, None)]
    && moved.drafts == map[0 := (0, Profile(1, 0, 1, NoDesktop, false))]
    && |moved.transfers| == 1 && moved.transfers[0].state.Moved? && moved.transfers[0].agent == 0
  }

  lemma EligibleAfterTheMove(moved: Sched)
    requires AfterTheMove(moved)
    ensures Eligible(moved, {}, Limits(100, 3), 0)
  {
    assert SeenOccupants(moved, 1) == {} && ActiveRuns(moved.runs) == {} && TopLevelRuns(moved.runs) == {};
  }

  lemma WorkAfterTheMove(moved: Sched)
    requires AfterTheMove(moved) && MoveInv(moved)
    ensures Eligible(moved, {}, Limits(100, 3), 0)
    ensures var working := Admit(moved, 0); var saved := SaveDraft(working, 0);
            && MoveInv(working) && working.profiles[0].machine == 1 && saved.profiles[0].machine == 0 && !Placement(saved)
  {
    EligibleAfterTheMove(moved);
    AdmitKeepsMoveInv(moved, {}, Limits(100, 3), 0);
    var working := Admit(moved, 0);
    assert working.runs[0].state.Active() && working.snapshots[0].machine == 1;
    assert SaveDraft(working, 0).runs[0].state.Active();
  }

  // ----- the other steps of the run table -----

  lemma AdmitKeepsMoveInv(s: Sched, linked: set<RunId>, limits: Limits, r: RunId)
    requires MoveInv(s) && r < |s.runs| && Eligible(s, linked, limits, r)
    ensures MoveInv(Admit(s, r)) && SameMachines(s, Admit(s, r))
  {
    var s' := Admit(s, r);
    forall i | 0 <= i < |s'.transfers| && s'.transfers[i].state.Moving() ensures !AgentBusy(s'.runs, s'.transfers[i].agent) {
      assert s.transfers[i].agent != s.runs[r].agent;
    }
  }

  lemma WriteKeepsMoveInv(s: Sched, r: RunId, state: RunState)
    requires MoveInv(s) && r < |s.runs| && (state.Active() ==> s.runs[r].state.Active())
    ensures MoveInv(s.(runs := SetState(s.runs, r, state)))
  {
    var runs' := SetState(s.runs, r, state);
    forall a: AgentId | AgentBusy(runs', a) ensures AgentBusy(s.runs, a) {
      var q: RunId :| q < |runs'| && runs'[q].agent == a && runs'[q].state.Active();
      assert s.runs[q].state.Active();
    }
  }

  /** The run may become active again as far as moves go: its agent's files are not being moved, and it
      was started for the machine its agent is on. */
  predicate MayWake(s: Sched, r: RunId)
    requires r < |s.runs|
  {
    var agent := s.runs[r].agent;
    && r in s.snapshots && agent in s.profiles && s.snapshots[r].machine == s.profiles[agent].machine
    && forall i | 0 <= i < |s.transfers| :: !(s.transfers[i].agent == agent && s.transfers[i].state.Moving())
  }

  /** A state write keeps runs and moves apart exactly when it wakes no run, or one that may wake. */
  lemma WriteKeepsMoveInvIff(s: Sched, r: RunId, state: RunState)
    requires MoveInv(s) && r < |s.runs|
    ensures MoveInv(s.(runs := SetState(s.runs, r, state))) <==> !state.Active() || s.runs[r].state.Active() || MayWake(s, r)
  {
    var s' := s.(runs := SetState(s.runs, r, state));
    if !state.Active() || s.runs[r].state.Active() {
      WriteKeepsMoveInv(s, r, state);
    } else {
      assert s'.runs[r].state.Active() && s'.runs[r].agent == s.runs[r].agent;
      if MayWake(s, r) {
        forall i | 0 <= i < |s'.transfers| && s'.transfers[i].state.Moving() ensures !AgentBusy(s'.runs, s'.transfers[i].agent) {
          assert s.transfers[i].agent != s.runs[r].agent;
        }
      }
    }
  }

  /** An agent whose run was cancelled and whose files are being exported. */
  ghost function ExportingAgent(): Sched {
    var p := Profile(1, 0, 1, NoDesktop, false);
    Sched([Run(0, NoParent, 0, Cancelled)], map[0 := 0], 1, map[0 := p], map[0 := p], map[0 := Machine(true, false, None)],
          [Transfer(0, 0, 1, Exporting, p.(machine := 1), None, None, true)], {}, map[])
  }

  /** A late question to the cancelled run makes the agent work while its files are exported. */
  lemma WokenRunDisturbsAMove(s: Sched)
    requires s == ExportingAgent()
    ensures MoveInv(s) && !MoveInv(s.(runs := SetState(s.runs, 0, WaitingInput)))
  {
    assert s.transfers[0].agent == s.runs[0].agent && s.transfers[0].state.Moving();
    WriteKeepsMoveInvIff(s, 0, WaitingInput);
  }

  lemma CreateKeepsMoveInv(s: Sched, run: Run)
    requires MoveInv(s) && run.state.Queued?
    ensures MoveInv(s.(runs := s.runs + [run]))
  {
    forall a: AgentId | AgentBusy(s.runs + [run], a) ensures AgentBusy(s.runs, a) {
      var q: RunId :| q < |s.runs + [run]| && (s.runs + [run])[q].agent == a && (s.runs + [run])[q].state.Active();
      assert s.runs[q].state.Active();
    }
  }
}
