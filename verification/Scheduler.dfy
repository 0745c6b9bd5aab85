/** Admission of runs: `createRun`, `pump` and the state effects of `execute` in runtime/service.ts,
    over the run, profile, machine and transfer tables. `linked` is the set of runs in `task_runs`. */
module Scheduler {
  import opened Rows
  import opened Runs

  const MAX_ACTIVE := 4
  const MAX_TOP_LEVEL := 2

  /** `startedAt` numbers the `run.started` rows of the event log; `drafts` holds the profiles that
      requests have read before waiting for their body. */
  datatype Sched = Sched(
    runs: seq<Run>,
    startedAt: map<RunId, nat>,
    nextEvent: nat,
    snapshots: map<RunId, Profile>,
    profiles: map<AgentId, Profile>,
    machines: map<MachineId, Machine>,
    transfers: seq<Transfer>,
    stopping: set<AgentId>,
    drafts: map<nat, (AgentId, Profile)>)

  // ----- createRun -----

  datatype CreateError = NoAgent | TooDeep | Cyclic | QueueFull

  datatype CreateResult = Created(run: RunId, runs: seq<Run>) | Refused(error: CreateError)

  /** An identifier that names no run stays a dangling reference for ever. */
  function Resolve(runs: seq<Run>, parent: ParentRef): ParentRef {
    if parent.Of? && |runs| <= parent.id then Unknown else parent
  }

  function CreateRun(s: Sched, limits: Limits, agent: AgentId, parent: ParentRef, depth: int): CreateResult {
    var p := Resolve(s.runs, parent);
    var d := if p.Of? then s.runs[p.id].depth + 1 else depth;
    if agent !in s.profiles then Refused(NoAgent)
    else if d > 2 then Refused(TooDeep)
    else if p.Of? && agent in LineAgents(s.runs, p.id) then Refused(Cyclic)
    else if |QueuedRuns(s.runs)| >= limits.queue then Refused(QueueFull)
    else Created(|s.runs|, s.runs + [Run(agent, p, d, Queued)])
  }

  // ----- capacity -----

  ghost predicate OnePerAgent(runs: seq<Run>) {
    forall q: RunId, r: RunId | q < |runs| && r < |runs| && runs[q].state.Active() && runs[r].state.Active() ::
      runs[q].agent == runs[r].agent ==> q == r
  }

  ghost predicate Capacity(runs: seq<Run>, linked: set<RunId>, limits: Limits) {
    && |ActiveRuns(runs)| <= MAX_ACTIVE
    && |TopLevelRuns(runs)| <= MAX_TOP_LEVEL
    && OnePerAgent(runs)
    && |ActiveRuns(runs) * linked| <= limits.taskRuns
    && |QueuedRuns(runs)| <= limits.queue
  }

  /** What `pump` checks before it lets a run become active, apart from machines and transfers. */
  predicate Slot(runs: seq<Run>, linked: set<RunId>, limits: Limits, r: RunId)
    requires r < |runs|
  {
    && |ActiveRuns(runs)| < MAX_ACTIVE
    && !AgentBusy(runs, runs[r].agent)
    && (r in linked ==> |ActiveRuns(runs) * linked| < limits.taskRuns)
    && (runs[r].depth == 0 ==> |TopLevelRuns(runs)| < MAX_TOP_LEVEL)
  }

  /** Writing a state to a run keeps every limit exactly when the write does not wake up a run that
      was not active, or a slot was free for it. */
  lemma WriteKeepsCapacityIff(runs: seq<Run>, linked: set<RunId>, limits: Limits, r: RunId, state: RunState)
    requires Capacity(runs, linked, limits) && r < |runs| && !state.Queued?
    ensures Capacity(SetState(runs, r, state), linked, limits)
            <==> !state.Active() || runs[r].state.Active() || Slot(runs, linked, limits, r)
  {
    if !state.Active() || runs[r].state.Active() {
      QuietWriteKeepsCapacity(runs, linked, limits, r, state);
    } else {
      WakingCounts(runs, linked, r, state);
      WakingIsExclusive(runs, r, state);
    }
  }

  lemma QuietWriteKeepsCapacity(runs: seq<Run>, linked: set<RunId>, limits: Limits, r: RunId, state: RunState)
    requires Capacity(runs, linked, limits) && r < |runs| && !state.Queued?
    requires !state.Active() || runs[r].state.Active()
    ensures Capacity(SetState(runs, r, state), linked, limits)
  {
    var runs' := SetState(runs, r, state);
    SetsAfter(runs, r, state);
    Cardinality(ActiveRuns(runs'), ActiveRuns(runs));
    Cardinality(TopLevelRuns(runs'), TopLevelRuns(runs));
    Cardinality(ActiveRuns(runs') * linked, ActiveRuns(runs) * linked);
    Cardinality(QueuedRuns(runs'), QueuedRuns(runs));
  }

  lemma WakingCounts(runs: seq<Run>, linked: set<RunId>, r: RunId, state: RunState)
    requires r < |runs| && state.Active() && !runs[r].state.Active()
    ensures var runs' := SetState(runs, r, state);
            && |ActiveRuns(runs')| == |ActiveRuns(runs)| + 1
            && |TopLevelRuns(runs')| == |TopLevelRuns(runs)| + (if runs[r].depth == 0 then 1 else 0)
            && |ActiveRuns(runs') * linked| == |ActiveRuns(runs) * linked| + (if r in linked then 1 else 0)
            && |QueuedRuns(runs')| <= |QueuedRuns(runs)|
  {
    var runs' := SetState(runs, r, state);
    var a := ActiveRuns(runs);
    SetsAfter(runs, r, state);
    assert r !in a && r !in TopLevelRuns(runs);
    assert (a + {r}) * linked == if r in linked then a * linked + {r} else a * linked;
    Cardinality(QueuedRuns(runs'), QueuedRuns(runs));
  }

  lemma WakingIsExclusive(runs: seq<Run>, r: RunId, state: RunState)
    requires r < |runs| && OnePerAgent(runs) && state.Active() && !runs[r].state.Active()
    ensures OnePerAgent(SetState(runs, r, state)) <==> !AgentBusy(runs, runs[r].agent)
  {
    var runs' := SetState(runs, r, state);
    if AgentBusy(runs, runs[r].agent) {
      var q: RunId :| q < |runs| && runs[q].agent == runs[r].agent && runs[q].state.Active();
      assert runs'[q].state.Active() && runs'[r].state.Active() && q != r;
    }
  }

  lemma CreateKeepsCapacity(runs: seq<Run>, linked: set<RunId>, limits: Limits, run: Run)
    requires Capacity(runs, linked, limits) && run.state.Queued? && |QueuedRuns(runs)| < limits.queue
    ensures Capacity(runs + [run], linked, limits)
    ensures Capacity(runs + [run], linked + {|runs|}, limits)
  {
    SetsAfterCreate(runs, run);
    assert ActiveRuns(runs) * (linked + {|runs|}) == ActiveRuns(runs) * linked;
  }

  lemma FewerLinksKeepCapacity(runs: seq<Run>, linked: set<RunId>, linked': set<RunId>, limits: Limits)
    requires Capacity(runs, linked, limits) && linked' <= linked
    ensures Capacity(runs, linked', limits)
  {
    Cardinality(ActiveRuns(runs) * linked', ActiveRuns(runs) * linked);
  }

  // ----- machines -----

  predicate Transferring(s: Sched, agent: AgentId) {
    exists i | 0 <= i < |s.transfers| :: s.transfers[i].agent == agent && s.transfers[i].state.InProgress()
  }

  predicate CanAssign(machines: map<MachineId, Machine>, machine: MachineId, agent: AgentId) {
    && machine in machines
    && !machines[machine].revoked
    && (machines[machine].reserved == None || machines[machine].reserved == Some(agent))
  }

  /** The profile an active run is counted under: its snapshot, else its agent's current profile. */
  function CountedProfile(s: Sched, r: RunId): Option<Profile>
    requires r < |s.runs|
  {
    if r in s.snapshots then Some(s.snapshots[r])
    else if s.runs[r].agent in s.profiles then Some(s.profiles[s.runs[r].agent])
    else None
  }

  /** The active runs `pump` sees on a machine: it reads the 100 newest runs only. */
  function SeenOccupants(s: Sched, machine: MachineId): set<RunId> {
    set r: RunId | r < |s.runs| && |s.runs| - READ_LIMIT <= r && s.runs[r].state.Active()
                   && CountedProfile(s, r).Some? && CountedProfile(s, r).value.machine == machine
  }

  predicate MachineFree(s: Sched, agent: AgentId) {
    agent !in s.profiles ||
    var p := s.profiles[agent];
    && CanAssign(s.machines, p.machine, agent)
    && s.machines[p.machine].online
    && |SeenOccupants(s, p.machine)| < p.concurrency
    && (p.desktop != Existing ||
        forall q: RunId | q in SeenOccupants(s, p.machine) :: CountedProfile(s, q).value.desktop != Existing)
  }

  predicate Eligible(s: Sched, linked: set<RunId>, limits: Limits, r: RunId)
    requires r < |s.runs|
  {
    && s.runs[r].state.Queued?
    && !AgentBusy(s.runs, s.runs[r].agent)
    && s.runs[r].agent !in s.stopping
    && !Transferring(s, s.runs[r].agent)
    && (r !in linked || |ActiveRuns(s.runs) * linked| < limits.taskRuns)
    && (s.runs[r].depth > 0 || |TopLevelRuns(s.runs)| < MAX_TOP_LEVEL)
    && MachineFree(s, s.runs[r].agent)
  }

  /** `execute` up to its first wait: the run is marked running and takes its profile snapshot; with
      no profile it fails on the spot. */
  function Admit(s: Sched, r: RunId): Sched
    requires r < |s.runs|
  {
    var running := SetState(s.runs, r, Running);
    var agent := s.runs[r].agent;
    if agent !in s.profiles then s.(runs := SetState(running, r, Failed))
    else s.(runs := running,
            snapshots := s.snapshots[r := s.profiles[agent]],
            startedAt := s.startedAt[r := s.nextEvent],
            nextEvent := s.nextEvent + 1)
  }

  lemma AdmitKeepsCapacity(s: Sched, linked: set<RunId>, limits: Limits, r: RunId)
    requires Capacity(s.runs, linked, limits) && r < |s.runs|
    requires |ActiveRuns(s.runs)| < MAX_ACTIVE && Eligible(s, linked, limits, r)
    ensures Capacity(Admit(s, r).runs, linked, limits)
  {
    WriteKeepsCapacityIff(s.runs, linked, limits, r, Running);
    if s.runs[r].agent !in s.profiles {
      WriteKeepsCapacityIff(SetState(s.runs, r, Running), linked, limits, r, Failed);
    }
  }

  // ----- machine limits -----

  /** Active runs carry a snapshot and a start number; numbers grow; queued runs carry neither. */
  ghost predicate Records(s: Sched) {
    && (forall r: RunId | r < |s.runs| && s.runs[r].state.Active() :: r in s.startedAt && r in s.snapshots)
    && (forall r: RunId | r in s.startedAt :: r < |s.runs| && s.startedAt[r] < s.nextEvent)
    && (forall r: RunId | r in s.snapshots :: r < |s.runs|)
    && (forall r: RunId | r < |s.runs| && s.runs[r].state.Queued? :: r !in s.startedAt && r !in s.snapshots)
  }

  /** All active runs whose snapshot names the machine. */
  ghost function Occupants(s: Sched, machine: MachineId): set<RunId> {
    set r: RunId | r in ActiveRuns(s.runs) && r in s.snapshots && s.snapshots[r].machine == machine
  }

  /** The still active runs on the machine of `r` that were admitted no later than `r`. */
  ghost function AdmittedBy(s: Sched, r: RunId): set<RunId>
    requires r in s.snapshots && r in s.startedAt
  {
    set q: RunId | q in Occupants(s, s.snapshots[r].machine) && q in s.startedAt && s.startedAt[q] <= s.startedAt[r]
  }

  ghost predicate WithinConcurrency(s: Sched) {
    forall r: RunId | r in ActiveRuns(s.runs) && r in s.snapshots && r in s.startedAt ::
      |AdmittedBy(s, r)| <= s.snapshots[r].concurrency
  }

  ghost predicate UsesDesktop(s: Sched, r: RunId, machine: MachineId) {
    r in Occupants(s, machine) && s.snapshots[r].desktop == Existing
  }

  ghost predicate DesktopsExclusive(s: Sched) {
    forall machine, q: RunId, r: RunId :: UsesDesktop(s, q, machine) && UsesDesktop(s, r, machine) ==> q == r
  }

  ghost predicate MachineLimits(s: Sched) { WithinConcurrency(s) && DesktopsExclusive(s) }

  /** No active run on the machine is older than the 100 newest runs. */
  ghost predicate InWindow(s: Sched, machine: MachineId) {
    forall r: RunId | r in Occupants(s, machine) :: |s.runs| - READ_LIMIT <= r
  }

  /** `pump` counts the machine's occupants correctly exactly when they all lie in its window. */
  lemma SeenAllIffInWindow(s: Sched, machine: MachineId)
    requires Records(s)
    ensures SeenOccupants(s, machine) == Occupants(s, machine) <==> InWindow(s, machine)
  {
    assert SeenOccupants(s, machine) <= Occupants(s, machine);
    if SeenOccupants(s, machine) == Occupants(s, machine) {
      forall r: RunId | r in Occupants(s, machine) ensures |s.runs| - READ_LIMIT <= r {
        assert r in SeenOccupants(s, machine);
      }
    }
  }

  /** The machine has room for one more run under the candidate's own settings. */
  ghost predicate RoomOnMachine(s: Sched, p: Profile) {
    && |Occupants(s, p.machine)| < p.concurrency
    && (p.desktop == Existing ==> forall q: RunId :: !UsesDesktop(s, q, p.machine))
  }

  lemma OccupantsAfterAdmit(s: Sched, r: RunId, machine: MachineId)
    requires Records(s) && r < |s.runs| && s.runs[r].state.Queued? && s.runs[r].agent in s.profiles
    ensures Occupants(Admit(s, r), machine) ==
            Occupants(s, machine) + if s.profiles[s.runs[r].agent].machine == machine then {r} else {}
    ensures r !in Occupants(s, machine)
  {
    SetsAfter(s.runs, r, Running);
  }

  lemma AdmittedByAfterAdmit(s: Sched, r: RunId, q: RunId)
    requires Records(s) && r < |s.runs| && s.runs[r].state.Queued? && s.runs[r].agent in s.profiles
    requires q in ActiveRuns(s.runs)
    ensures var s' := Admit(s, r); q in s'.startedAt && q in s'.snapshots && AdmittedBy(s', q) == AdmittedBy(s, q)
  {
    OccupantsAfterAdmit(s, r, s.snapshots[q].machine);
  }

  lemma AdmittedByNewest(s: Sched, r: RunId)
    requires Records(s) && r < |s.runs| && s.runs[r].state.Queued? && s.runs[r].agent in s.profiles
    ensures var s', p := Admit(s, r), s.profiles[s.runs[r].agent];
            && ActiveRuns(s'.runs) == ActiveRuns(s.runs) + {r}
            && |AdmittedBy(s', r)| == |Occupants(s, p.machine)| + 1
  {
    var s', p := Admit(s, r), s.profiles[s.runs[r].agent];
    assert ActiveRuns(s'.runs) == ActiveRuns(s.runs) + {r} by { SetsAfter(s.runs, r, Running); }
    assert r in s'.snapshots && s'.snapshots[r] == p && s'.startedAt[r] == s.nextEvent;
    forall q: RunId | q in Occupants(s', p.machine) ensures q in s'.startedAt && s'.startedAt[q] <= s.nextEvent {
      assert q == r || q in ActiveRuns(s.runs);
    }
    assert AdmittedBy(s', r) == Occupants(s', p.machine);
    OccupantsAfterAdmit(s, r, p.machine);
  }

  lemma AdmitConcurrencyIff(s: Sched, r: RunId)
    requires Records(s) && WithinConcurrency(s)
    requires r < |s.runs| && s.runs[r].state.Queued? && s.runs[r].agent in s.profiles
    ensures var p := s.profiles[s.runs[r].agent];
            WithinConcurrency(Admit(s, r)) <==> |Occupants(s, p.machine)| < p.concurrency
  {
    var s', p := Admit(s, r), s.profiles[s.runs[r].agent];
    AdmittedByNewest(s, r);
    forall q: RunId | q in ActiveRuns(s.runs)
      ensures q in s'.startedAt && q in s'.snapshots && |AdmittedBy(s', q)| <= s'.snapshots[q].concurrency
    {
      AdmittedByAfterAdmit(s, r, q);
    }
  }

  lemma AdmitDesktopsIff(s: Sched, r: RunId)
    requires Records(s) && DesktopsExclusive(s)
    requires r < |s.runs| && s.runs[r].state.Queued? && s.runs[r].agent in s.profiles
    ensures var p := s.profiles[s.runs[r].agent];
            DesktopsExclusive(Admit(s, r)) <==> (p.desktop == Existing ==> forall q: RunId :: !UsesDesktop(s, q, p.machine))
  {
    var s', p := Admit(s, r), s.profiles[s.runs[r].agent];
    forall machine, q: RunId
      ensures UsesDesktop(s', q, machine) <==>
              UsesDesktop(s, q, machine) || (q == r && machine == p.machine && p.desktop == Existing)
    {
      OccupantsAfterAdmit(s, r, machine);
    }
    OccupantsAfterAdmit(s, r, p.machine);
    if DesktopsExclusive(s') && p.desktop == Existing {
      assert UsesDesktop(s', r, p.machine);
      forall q: RunId ensures !UsesDesktop(s, q, p.machine) {
      }
    }
  }

  /** Admission keeps every machine limit exactly when the machine really has room. */
  lemma AdmitKeepsMachineLimitsIff(s: Sched, r: RunId)
    requires Records(s) && MachineLimits(s)
    requires r < |s.runs| && s.runs[r].state.Queued? && s.runs[r].agent in s.profiles
    ensures MachineLimits(Admit(s, r)) <==> RoomOnMachine(s, s.profiles[s.runs[r].agent])
  {
    AdmitConcurrencyIff(s, r);
    AdmitDesktopsIff(s, r);
  }

  /** So an eligible run may be admitted whenever its machine's occupants lie in the window. */
  lemma EligibleHasRoom(s: Sched, linked: set<RunId>, limits: Limits, r: RunId)
    requires Records(s) && r < |s.runs| && Eligible(s, linked, limits, r) && s.runs[r].agent in s.profiles
    requires InWindow(s, s.profiles[s.runs[r].agent].machine)
    ensures RoomOnMachine(s, s.profiles[s.runs[r].agent])
  {
    SeenAllIffInWindow(s, s.profiles[s.runs[r].agent].machine);
  }

  /** Writing a state to a run that is already active, or ending any run, frees room and takes none. */
  lemma WriteKeepsMachineLimits(s: Sched, r: RunId, state: RunState)
    requires Records(s) && MachineLimits(s) && r < |s.runs| && !state.Queued?
    requires state.Active() ==> s.runs[r].state.Active()
    ensures var s' := s.(runs := SetState(s.runs, r, state)); Records(s') && MachineLimits(s')
  {
    var s' := s.(runs := SetState(s.runs, r, state));
    SetsAfter(s.runs, r, state);
    assert ActiveRuns(s'.runs) <= ActiveRuns(s.runs);
    forall q: RunId | q in ActiveRuns(s'.runs) ensures |AdmittedBy(s', q)| <= s'.snapshots[q].concurrency {
      assert AdmittedBy(s', q) <= AdmittedBy(s, q);
      Cardinality(AdmittedBy(s', q), AdmittedBy(s, q));
    }
    forall machine, q: RunId ensures UsesDesktop(s', q, machine) ==> UsesDesktop(s, q, machine) {}
  }

  // ----- waking a run -----

  /** The machine of an inactive run still has room for it: for the run itself among those admitted before
      it, for every active run admitted after it, and on the desktop. */
  ghost predicate RoomToWake(s: Sched, r: RunId) {
    && r in s.snapshots && r in s.startedAt
    && |AdmittedBy(s, r)| < s.snapshots[r].concurrency
    && (forall q: RunId | q in Occupants(s, s.snapshots[r].machine) && q in s.startedAt && s.startedAt[r] <= s.startedAt[q] ::
          |AdmittedBy(s, q)| < s.snapshots[q].concurrency)
    && (s.snapshots[r].desktop == Existing ==> forall q: RunId :: !UsesDesktop(s, q, s.snapshots[r].machine))
  }

  lemma OccupantsAfterWake(s: Sched, r: RunId, state: RunState, machine: MachineId)
    requires Records(s) && r < |s.runs| && state.Active() && !s.runs[r].state.Active() && r in s.snapshots
    ensures Occupants(s.(runs := SetState(s.runs, r, state)), machine) ==
            Occupants(s, machine) + if s.snapshots[r].machine == machine then {r} else {}
    ensures r !in Occupants(s, machine)
  {
    SetsAfter(s.runs, r, state);
  }

  /** The runs counted for `q`, by machine and start number. */
  lemma AdmittedByIs(s: Sched, q: RunId, occupants: set<RunId>)
    requires q in s.snapshots && q in s.startedAt && occupants == Occupants(s, s.snapshots[q].machine)
    ensures AdmittedBy(s, q) == set x: RunId | x in occupants && x in s.startedAt && s.startedAt[x] <= s.startedAt[q]
  {}

  /** Waking counts against every run that was admitted no earlier on the same machine, itself included. */
  lemma AdmittedByAfterWake(s: Sched, r: RunId, state: RunState, q: RunId)
    requires Records(s) && r < |s.runs| && state.Active() && !s.runs[r].state.Active() && r in s.snapshots && r in s.startedAt
    requires q in s.snapshots && q in s.startedAt
    ensures var s' := s.(runs := SetState(s.runs, r, state));
            |AdmittedBy(s', q)| == |AdmittedBy(s, q)| +
              if s.snapshots[r].machine == s.snapshots[q].machine && s.startedAt[r] <= s.startedAt[q] then 1 else 0
  {
    var s' := s.(runs := SetState(s.runs, r, state));
    var occupants := Occupants(s, s.snapshots[q].machine);
    OccupantsAfterWake(s, r, state, s.snapshots[q].machine);
    AdmittedByIs(s, q, occupants);
    AdmittedByIs(s', q, Occupants(s', s.snapshots[q].machine));
    if s.snapshots[r].machine == s.snapshots[q].machine && s.startedAt[r] <= s.startedAt[q] {
      assert AdmittedBy(s', q) == AdmittedBy(s, q) + {r};
    } else {
      assert AdmittedBy(s', q) == AdmittedBy(s, q);
    }
  }

  lemma WakeConcurrencyIff(s: Sched, r: RunId, state: RunState)
    requires Records(s) && WithinConcurrency(s)
    requires r < |s.runs| && state.Active() && !s.runs[r].state.Active() && r in s.snapshots && r in s.startedAt
    ensures WithinConcurrency(s.(runs := SetState(s.runs, r, state))) <==>
              && |AdmittedBy(s, r)| < s.snapshots[r].concurrency
              && (forall q: RunId | q in Occupants(s, s.snapshots[r].machine) && q in s.startedAt && s.startedAt[r] <= s.startedAt[q] ::
                    |AdmittedBy(s, q)| < s.snapshots[q].concurrency)
  {
    var s' := s.(runs := SetState(s.runs, r, state));
    SetsAfter(s.runs, r, state);
    AdmittedByAfterWake(s, r, state, r);
    forall q: RunId | q in ActiveRuns(s.runs)
      ensures q in s.snapshots && q in s.startedAt && |AdmittedBy(s, q)| <= s.snapshots[q].concurrency
      ensures |AdmittedBy(s', q)| == |AdmittedBy(s, q)| +
                if s.snapshots[r].machine == s.snapshots[q].machine && s.startedAt[r] <= s.startedAt[q] then 1 else 0
    {
      AdmittedByAfterWake(s, r, state, q);
    }
  }

  lemma WakeDesktopsIff(s: Sched, r: RunId, state: RunState)
    requires Records(s) && DesktopsExclusive(s)
    requires r < |s.runs| && state.Active() && !s.runs[r].state.Active() && r in s.snapshots
    ensures DesktopsExclusive(s.(runs := SetState(s.runs, r, state))) <==>
              (s.snapshots[r].desktop == Existing ==> forall q: RunId :: !UsesDesktop(s, q, s.snapshots[r].machine))
  {
    var s', m := s.(runs := SetState(s.runs, r, state)), s.snapshots[r].machine;
    forall machine, q: RunId
      ensures UsesDesktop(s', q, machine) <==>
              UsesDesktop(s, q, machine) || (q == r && machine == m && s.snapshots[r].desktop == Existing)
    {
      OccupantsAfterWake(s, r, state, machine);
    }
    OccupantsAfterWake(s, r, state, m);
    if DesktopsExclusive(s') && s.snapshots[r].desktop == Existing {
      assert UsesDesktop(s', r, m);
      forall q: RunId ensures !UsesDesktop(s, q, m) {}
    }
  }

  /** A state write keeps records and machine limits exactly when it wakes no run, or one whose machine
      has room for it. */
  lemma WriteKeepsMachineLimitsIff(s: Sched, r: RunId, state: RunState)
    requires Records(s) && MachineLimits(s) && r < |s.runs| && !state.Queued?
    ensures var s' := s.(runs := SetState(s.runs, r, state));
            Records(s') && MachineLimits(s') <==> !state.Active() || s.runs[r].state.Active() || RoomToWake(s, r)
  {
    var s' := s.(runs := SetState(s.runs, r, state));
    if !state.Active() || s.runs[r].state.Active() {
      WriteKeepsMachineLimits(s, r, state);
    } else {
      assert s'.runs[r].state.Active();
      if r in s.snapshots && r in s.startedAt {
        assert Records(s');
        WakeConcurrencyIff(s, r, state);
        WakeDesktopsIff(s, r, state);
      }
    }
  }

  /** An agent's cancelled run and its next one, on a machine for one run. */
  ghost function EndedAndRunning(): Sched {
    var p := Profile(1, 0, 1, NoDesktop, false);
    Sched([Run(0, NoParent, 0, Cancelled), Run(0, NoParent, 0, Running)], map[0 := 0, 1 := 1], 2, map[0 := p, 1 := p],
          map[0 := p], map[0 := Machine(true, false, None)], [], {}, map[])
  }

  lemma EndedAndRunningCapacity(s: Sched)
    requires s == EndedAndRunning()
    ensures ActiveRuns(s.runs) == {1} && Capacity(s.runs, {}, Limits(100, 3))
  {
    assert ActiveRuns(s.runs) == {1} && TopLevelRuns(s.runs) == {1} && QueuedRuns(s.runs) == {};
    assert ActiveRuns(s.runs) * {} == {};
  }

  lemma EndedAndRunningMachine(s: Sched)
    requires s == EndedAndRunning() && ActiveRuns(s.runs) == {1}
    ensures Records(s) && MachineLimits(s) && AdmittedBy(s, 1) == {1} && 1 in Occupants(s, 0)
  {
    assert AdmittedBy(s, 1) == {1};
  }

  lemma WokenRunExceedsCapacity(s: Sched)
    requires s == EndedAndRunning()
    ensures Capacity(s.runs, {}, Limits(100, 3)) && !Capacity(SetState(s.runs, 0, WaitingInput), {}, Limits(100, 3))
  {
    EndedAndRunningCapacity(s);
    assert s.runs[1].agent == s.runs[0].agent && s.runs[1].state.Active();
    assert AgentBusy(s.runs, s.runs[0].agent);
    WriteKeepsCapacityIff(s.runs, {}, Limits(100, 3), 0, WaitingInput);
  }

  lemma WokenRunOverbooks(s: Sched)
    requires s == EndedAndRunning()
    ensures Records(s) && MachineLimits(s)
    ensures var s' := s.(runs := SetState(s.runs, 0, WaitingInput)); !(Records(s') && MachineLimits(s'))
  {
    EndedAndRunningCapacity(s);
    EndedAndRunningMachine(s);
    WriteKeepsMachineLimitsIff(s, 0, WaitingInput);
  }

  /** A late question to the cancelled run gives the agent two active runs and overbooks the machine. */
  lemma WokenRunExceedsLimits(s: Sched)
    requires s == EndedAndRunning()
    ensures Records(s) && MachineLimits(s) && Capacity(s.runs, {}, Limits(100, 3))
    ensures var s' := s.(runs := SetState(s.runs, 0, WaitingInput));
            !Capacity(s'.runs, {}, Limits(100, 3)) && !(Records(s') && MachineLimits(s'))
  {
    WokenRunExceedsCapacity(s);
    WokenRunOverbooks(s);
  }
}
