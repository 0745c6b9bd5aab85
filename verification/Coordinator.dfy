/** The coordinator process (runtime/service.ts): creating, admitting and stopping runs, and starting up. */
module Coordinator {
  import opened Rows
  import opened Runs
  import opened Scheduler
  import opened Pump
  import opened Desk
  import opened Recovery
  import opened System
  import opened Database
  import opened Commands
  import opened Fleet
  import opened Stopping

  // ----- what one call of `pump` does -----

  /** `pump` over runs and boards: admissions until the slots are full or nothing is eligible. */
  function PumpSys(sys: Sys, limits: Limits): Sys
    decreases |QueuedRuns(sys.s.runs)|
  {
    var next := Pump.Next(sys.s, sys.d.links.Keys, limits);
    if |ActiveRuns(sys.s.runs)| >= MAX_ACTIVE || next.None? then sys
    else
      RoundAdmits(sys.s, sys.d.links.Keys, limits);
      AdmitRunParts(sys, next.value);
      PumpSys(AdmitRun(sys, next.value), limits)
  }

  lemma AdmitRunParts(sys: Sys, r: RunId)
    requires r < |sys.s.runs|
    ensures AdmitRun(sys, r).s == Admit(sys.s, r) && AdmitRun(sys, r).d.links == sys.d.links
  {}

  /** Seen from the run table alone it is the loop of `Pump`. */
  lemma {:induction false} PumpSysIsPumpAll(sys: Sys, limits: Limits)
    ensures PumpSys(sys, limits).s == PumpAll(sys.s, sys.d.links.Keys, limits)
    ensures PumpSys(sys, limits).d.links == sys.d.links
    decreases |QueuedRuns(sys.s.runs)|
  {
    var next := Pump.Next(sys.s, sys.d.links.Keys, limits);
    if |ActiveRuns(sys.s.runs)| < MAX_ACTIVE && next.Some? {
      RoundAdmits(sys.s, sys.d.links.Keys, limits);
      AdmitRunParts(sys, next.value);
      PumpSysIsPumpAll(AdmitRun(sys, next.value), limits);
    }
  }

  /** One round of `pump` is an admission step. */
  lemma PumpRound(sys: Sys, limits: Limits)
    requires LiveInWindow(sys.s.runs) && |ActiveRuns(sys.s.runs)| < MAX_ACTIVE
    requires Pump.Next(sys.s, sys.d.links.Keys, limits).Some?
    ensures var r := Pump.Next(sys.s, sys.d.links.Keys, limits).value;
            && r < |sys.s.runs| && Fits(sys, Admission(r)) && System.Next(sys, limits, Admission(r)) == AdmitRun(sys, r)
            && LiveInWindow(AdmitRun(sys, r).s.runs) && |QueuedRuns(AdmitRun(sys, r).s.runs)| < |QueuedRuns(sys.s.runs)|
  {
    var r := Pump.Next(sys.s, sys.d.links.Keys, limits).value;
    RoundAdmits(sys.s, sys.d.links.Keys, limits);
    AdmitRunParts(sys, r);
    WindowAfterAdmit(sys.s, r);
  }

  lemma OneMoreStep(sys: Sys, limits: Limits, step: Step, rest: seq<Step>)
    requires Fits(sys, step) && AllFit(System.Next(sys, limits, step), limits, rest)
    ensures AllFit(sys, limits, [step] + rest)
    ensures RunAll(sys, limits, [step] + rest) == RunAll(System.Next(sys, limits, step), limits, rest)
  {
    assert ([step] + rest)[1..] == rest;
  }

  /** A call of `pump` is a run of admission steps, each within the hypotheses of the invariants when
      the live runs lie in its window. */
  lemma {:induction false} PumpSteps(sys: Sys, limits: Limits) returns (steps: seq<Step>)
    requires LiveInWindow(sys.s.runs)
    ensures AllFit(sys, limits, steps) && RunAll(sys, limits, steps) == PumpSys(sys, limits)
    ensures forall step | step in steps :: step.Admission?
    decreases |QueuedRuns(sys.s.runs)|
  {
    var next := Pump.Next(sys.s, sys.d.links.Keys, limits);
    if |ActiveRuns(sys.s.runs)| < MAX_ACTIVE && next.Some? {
      PumpRound(sys, limits);
      var rest := PumpSteps(AdmitRun(sys, next.value), limits);
      steps := [Admission(next.value)] + rest;
      OneMoreStep(sys, limits, Admission(next.value), rest);
    } else {
      steps := [];
    }
  }

  lemma PumpSysKeepsInv(sys: Sys, limits: Limits)
    requires Inv(sys, limits) && LiveInWindow(sys.s.runs)
    ensures Inv(PumpSys(sys, limits), limits)
  {
    var steps := PumpSteps(sys, limits);
    EveryReachableState(sys, limits, steps);
  }

  lemma WindowAfterAdmit(s: Sched, r: RunId)
    requires LiveInWindow(s.runs) && r < |s.runs| && s.runs[r].state.Queued?
    ensures LiveInWindow(Admit(s, r).runs)
    ensures r < |s.runs| && s.runs[r].agent in s.profiles ==> InWindow(s, s.profiles[s.runs[r].agent].machine)
  {}

  // ----- the process -----

  class Service {
    const db: Tables
    const store: Store
    const listener: RunListener
    const machines: Machines
    const limits: Limits
    var stopping: set<AgentId>
    var drafts: map<nat, (AgentId, Profile)>

    /** Runs that work on another machine, and those a stop command has been sent for. */
    var remoteActive: map<RunId, MachineId>
    var remoteStopping: set<RunId>

    constructor (db: Tables, limits: Limits)
      ensures Valid() && this.db == db && this.limits == limits && stopping == {} && drafts == map[]
      ensures remoteActive == map[] && remoteStopping == {}
    {
      this.db, this.limits := db, limits;
      var tasks := new RunListener(db);
      listener := tasks;
      store := new Store(db, tasks);
      machines := new Machines(db);
      stopping, drafts, remoteActive, remoteStopping := {}, map[], map[], {};
    }

    predicate Valid() { store.db == db && listener.db == db && store.listener == listener && machines.db == db }

    ghost function Abs(): Sys
      reads this, db
    {
      Sys(Sched(db.runs, db.startedAt, db.nextEvent, db.snapshots, db.profiles, db.machines, db.transfers, stopping, drafts), db.Board())
    }

    /** The agents of the run and everyone it was delegated from. */
    method Ancestors(r: RunId) returns (agents: set<AgentId>)
      requires Rooted(db.runs) && r < |db.runs|
      ensures agents == LineAgents(db.runs, r)
    {
      agents := {db.runs[r].agent};
      var cursor := r;
      while db.runs[cursor].parent.Of?
        invariant cursor < |db.runs|
        invariant agents + LineAgents(db.runs, cursor) == LineAgents(db.runs, r)
        invariant db.runs[cursor].agent in agents
        decreases cursor
      {
        cursor := db.runs[cursor].parent.id;
        agents := agents + {db.runs[cursor].agent};
      }
    }

    method CreateRun(agent: AgentId, parent: ParentRef, depth: int) returns (result: CreateResult)
      requires Valid() && Rooted(db.runs)
      modifies db`runs
      ensures result == Scheduler.CreateRun(old(Abs()).s, limits, agent, parent, depth)
      ensures db.runs == if result.Created? then result.runs else old(db.runs)
    {
      if agent !in db.profiles { return Refused(NoAgent); }
      var known := Resolve(db.runs, parent);
      var level := if known.Of? then db.runs[known.id].depth + 1 else depth;
      if level > 2 { return Refused(TooDeep); }
      if known.Of? {
        var agents := Ancestors(known.id);
        if agent in agents { return Refused(Cyclic); }
      }
      var waiting := store.Queued(limits.queue + 1);
      if |waiting| >= limits.queue { return Refused(QueueFull); }
      db.runs := db.runs + [Run(agent, known, level, Queued)];
      result := Created(|db.runs| - 1, db.runs);
    }

    /** `start` of a board task: the checks, the run, and the rows that link them, in one transaction. */
    method StartTask(t: TaskId, key: nat, revision: Option<nat>) returns (run: Option<RunId>)
      requires Valid() && Rooted(db.runs)
      modifies db`runs, db`tasks, db`links
      ensures Abs() == System.StartTask(old(Abs()), limits, t, key, revision)
      ensures run.Some? ==> run.value == |old(db.runs)| && run.value in db.links && db.links[run.value].key == key
      ensures run.None? ==> db.runs == old(db.runs) && db.links == old(db.links)
    {
      var check := CheckStart(db.runs, db.Board(), t, key, revision);
      if !check.Go? { return None; }
      var created := CreateRun(check.agent, NoParent, 0);
      if created.Refused? { return None; }
      LinkStarted(t, key, created.run, check.stage);
      run := Some(created.run);
    }

    method LinkStarted(t: TaskId, key: nat, run: RunId, stage: StageId)
      requires t in db.tasks
      modifies db`tasks, db`links
      ensures db.Board() == LinkRun(old(db.Board()), t, key, run, stage)
    {
      var task := db.tasks[t];
      var attempt := MaxOf(Attempts(db.links, t)) + 1;
      db.links := db.links[run := Link(t, attempt, key)];
      db.tasks := db.tasks[t := task.(stage := stage, activeRun := Some(run), revision := task.revision + 1)];
    }

    /** `execute` up to its first wait. */
    method Execute(r: RunId)
      requires Valid() && r < |db.runs|
      modifies db`runs, db`tasks, db`snapshots, db`startedAt, db`nextEvent
      ensures Abs() == AdmitRun(old(Abs()), r)
    {
      var agent := db.runs[r].agent;
      store.SetRun(r, Running);
      if agent !in db.profiles {
        store.SetRun(r, Failed);
      } else {
        TakeSnapshot(r, db.profiles[agent]);
      }
    }

    method TakeSnapshot(r: RunId, profile: Profile)
      modifies db`snapshots, db`startedAt, db`nextEvent
      ensures db.snapshots == old(db.snapshots)[r := profile]
      ensures db.startedAt == old(db.startedAt)[r := old(db.nextEvent)] && db.nextEvent == old(db.nextEvent) + 1
    {
      db.snapshots := db.snapshots[r := profile];
      db.startedAt := db.startedAt[r := db.nextEvent];
      db.nextEvent := db.nextEvent + 1;
    }

    /** The first eligible run among the first 100 queued ones. */
    method FindNext() returns (next: Option<RunId>)
      requires Valid()
      ensures next == Pump.Next(Abs().s, Abs().d.links.Keys, limits)
    {
      var s, linked := db.Rest().(stopping := stopping, drafts := drafts), db.links.Keys;
      var i, seen := 0, 0;
      while i < |db.runs| && seen < READ_LIMIT
        invariant 0 <= i <= |db.runs| && 0 <= seen <= READ_LIMIT
        invariant Pump.Next(s, linked, limits) == FirstEligible(s, linked, limits, i, seen)
      {
        if db.runs[i].state.Queued? {
          if Eligible(s, linked, limits, i) { return Some(i); }
          seen := seen + 1;
        }
        i := i + 1;
      }
      next := None;
    }

    method PumpRuns()
      requires Valid()
      modifies db`runs, db`tasks, db`snapshots, db`startedAt, db`nextEvent
      ensures Abs() == PumpSys(old(Abs()), limits)
    {
      while |ActiveRuns(db.runs)| < MAX_ACTIVE
        invariant PumpSys(Abs(), limits) == PumpSys(old(Abs()), limits)
        decreases |QueuedRuns(db.runs)|
      {
        var next := FindNext();
        if next.None? { break; }
        RoundAdmits(Abs().s, Abs().d.links.Keys, limits);
        AdmitRunParts(Abs(), next.value);
        Execute(next.value);
      }
    }

    // ----- starting up -----

    /** The start-up statements in order: runs, runs of tasks, the replay of
        the listener, then transfers. */
    method Open()
      requires Valid() && LinkedRows(db.runs, db.Board())
      modifies this`stopping, this`drafts, db`runs, db`tasks, db`machines, db`transfers
      ensures stopping == {} && drafts == map[]
      ensures db.runs == RecoverRuns(old(db.runs), db.links.Keys)
      ensures db.machines == ReleaseAll(old(db.machines), old(db.transfers)) && db.transfers == RecoverTransfers(old(db.transfers))
      ensures db.Board() == Reconciled(db.runs, old(db.Board()))
    {
      stopping, drafts := {}, map[];
      RecoverRunTable();
      listener.Reconcile();
      machines.Recover();
    }

    method RecoverRunTable()
      requires Valid()
      modifies db`runs
      ensures db.runs == RecoverRuns(old(db.runs), db.links.Keys)
    {
      store.RecoverActive();
      store.RecoverQueued();
    }

    /** That is the recovery step of the system. */
    twostate lemma OpenIsBoot()
      requires stopping == {} && drafts == map[]
      requires db.runs == RecoverRuns(old(db.runs), db.links.Keys)
      requires db.machines == ReleaseAll(old(db.machines), old(db.transfers)) && db.transfers == RecoverTransfers(old(db.transfers))
      requires db.Board() == Reconciled(db.runs, old(db.Board()))
      requires db.startedAt == old(db.startedAt) && db.nextEvent == old(db.nextEvent) && db.snapshots == old(db.snapshots)
      requires db.profiles == old(db.profiles)
      ensures Abs() == Boot(old(Abs()))
    {}

    // ----- events from the agents' processes -----

    /** `mapHermesEvent`: a question puts the run on hold, whatever state it was in. */
    method OnQuestion(r: RunId, approval: bool)
      requires Valid() && r < |db.runs|
      modifies db`runs, db`tasks
      ensures Abs() == WriteRun(old(Abs()), r, if approval then WaitingApproval else WaitingInput)
    {
      if approval { store.SetRun(r, WaitingApproval); } else { store.SetRun(r, WaitingInput); }
    }

    /** The heartbeat route, with what its writes do to the boards. */
    method InterruptRuns(lost: seq<RunId>)
      requires Valid()
      modifies db`runs, db`tasks
      ensures Written(db.runs, db.Board()) == InterruptAll(Written(old(db.runs), old(db.Board())), lost)
      ensures forall r: RunId | r < |db.runs| ::
                db.runs[r] == if r in lost && !old(db.runs)[r].state.Terminal() then old(db.runs)[r].(state := Interrupted) else old(db.runs)[r]
    {
      ghost var before := Written(db.runs, db.Board());
      var i := 0;
      while i < |lost|
        invariant 0 <= i <= |lost|
        invariant Written(db.runs, db.Board()) == InterruptAll(before, lost[..i])
      {
        assert lost[..i + 1][..i] == lost[..i];
        if lost[i] < |db.runs| && !db.runs[lost[i]].state.Terminal() { store.SetRun(lost[i], Interrupted); }
        i := i + 1;
      }
      assert lost[..i] == lost;
      InterruptedRuns(before, lost);
    }

    // ----- stopping -----

    ghost function Stopping(sent: map<RunId, MachineId>): StopState
      reads this, db
    {
      StopState(Written(db.runs, db.Board()), remoteActive, sent)
    }

    /** What other handlers do while this one waits. */
    method Meanwhile(p: Pause)
      requires Valid()
      modifies db`runs, db`tasks, this`remoteActive
      ensures Written(db.runs, db.Board()) == WriteAll(Written(old(db.runs), old(db.Board())), p.writes)
      ensures remoteActive == p.remote
    {
      ghost var before := Written(db.runs, db.Board());
      remoteActive := p.remote;
      var i := 0;
      while i < |p.writes|
        invariant 0 <= i <= |p.writes| && remoteActive == p.remote
        invariant Written(db.runs, db.Board()) == WriteAll(before, p.writes[..i])
      {
        assert p.writes[..i + 1][..i] == p.writes[..i];
        var (r, state) := p.writes[i];
        if r < |db.runs| && !state.Queued? { store.SetRun(r, state); }
        i := i + 1;
      }
      assert p.writes[..i] == p.writes;
    }

    /** Cancels a local run, waits for its gateway, and interrupts the run if the gateway fails. */
    method StopLocal(r: RunId, gatewayFails: bool, p: Pause)
      requires Valid() && r < |db.runs|
      modifies db`runs, db`tasks, this`remoteActive
      ensures Written(db.runs, db.Board()) ==
              WriteAll(Written(old(db.runs), old(db.Board())), StopWrites(r, gatewayFails, p))
      ensures remoteActive == p.remote
    {
      ghost var before, first := Written(db.runs, db.Board()), [(r, Cancelled)];
      store.SetRun(r, Cancelled);
      assert first[..0] == [] && WriteAll(before, first[..0]) == before;
      assert Written(db.runs, db.Board()) == WriteAll(before, first);
      Meanwhile(p);
      WriteAllJoin(before, first, p.writes);
      ghost var heard := first + p.writes;
      if gatewayFails {
        store.SetRun(r, Interrupted);
        assert (heard + [(r, Interrupted)])[..|heard|] == heard;
      } else {
        assert heard + [] == heard;
      }
    }

    method SendStop(machine: MachineId, r: RunId)
      requires Valid()
      modifies machines`commands, machines`runOf, machines`transferOf
      ensures StopQueued(machines, machine, r)
      ensures forall q, m | old(StopQueued(machines, m, q)) :: StopQueued(machines, m, q)
    {
      var c := machines.Enqueue(machine, Some(r), None);
      assert machines.runOf[(machine, c)] == r && machines.RowsOf(machine)[c].Pending?;
    }

    /** Stops one run of the tree. A remote run always gets a stop command, also when it had one. */
    method StopOne(r: RunId, gatewayFails: bool, p: Pause, sent: map<RunId, MachineId>) returns (sent': map<RunId, MachineId>)
      requires Valid()
      modifies db`runs, db`tasks, this`stopping, this`remoteActive, this`remoteStopping
      modifies machines`commands, machines`runOf, machines`transferOf
      ensures Stopping(sent') == StopStep(old(Stopping(sent)), r, gatewayFails, p)
      ensures stopping <= old(stopping) && old(remoteStopping) <= remoteStopping <= old(remoteStopping) + sent'.Keys
      ensures forall q, m | old(StopQueued(machines, m, q)) :: StopQueued(machines, m, q)
      ensures sent' != sent ==> r in remoteStopping && sent'.Keys == sent.Keys + {r} && StopQueued(machines, sent'[r], r)
    {
      sent' := sent;
      if r >= |db.runs| || db.runs[r].state.Terminal() { return; }
      var agent := db.runs[r].agent;
      stopping := stopping + {agent};
      if r in remoteActive {
        remoteStopping := remoteStopping + {r};
        SendStop(remoteActive[r], r);
        sent' := sent[r := remoteActive[r]];
      } else {
        StopLocal(r, gatewayFails, p);
      }
      stopping := stopping - {agent};
    }

    /** The run and everything delegated below it. */
    method TreeOf(r: RunId) returns (ids: seq<RunId>)
      requires Rooted(db.runs)
      ensures Distinct(ids) && forall q: RunId :: q in ids <==> q == r || Below(db.runs, r, q)
    {
      var below := Descendants(db.runs, r);
      assert !Below(db.runs, r, r) by {
        if Below(db.runs, r, r) { BelowIsLater(db.runs, r, r); }
      }
      ids := [r] + below;
    }

    method StopEach(ids: seq<RunId>, gatewayFails: set<RunId>, pauses: seq<Pause>) returns (sent: map<RunId, MachineId>)
      requires Valid()
      modifies db`runs, db`tasks, this`stopping, this`remoteActive, this`remoteStopping
      modifies machines`commands, machines`runOf, machines`transferOf
      ensures Stopping(sent) == StopAll(old(Stopping(map[])), ids, gatewayFails, pauses)
      ensures forall q | q in sent :: q in remoteStopping && StopQueued(machines, sent[q], q)
      ensures stopping <= old(stopping) && old(remoteStopping) <= remoteStopping <= old(remoteStopping) + sent.Keys
    {
      sent := map[];
      ghost var start := Stopping(map[]);
      var i := 0;
      while i < |ids|
        invariant 0 <= i <= |ids|
        invariant Stopping(sent) == StopAll(start, ids[..i], gatewayFails, pauses)
        invariant forall q | q in sent :: q in remoteStopping && StopQueued(machines, sent[q], q)
        invariant stopping <= old(stopping) && old(remoteStopping) <= remoteStopping <= old(remoteStopping) + sent.Keys
      {
        assert ids[..i + 1][..i] == ids[..i];
        sent := StopOne(ids[i], ids[i] in gatewayFails, PauseAt(pauses, i, remoteActive), sent);
        i := i + 1;
      }
      assert ids[..i] == ids;
    }

    /** `stopRunTree`, for everything other handlers may do during its waits, as long as no run is
        created below. If they revive no ended run, every run of the tree has ended, or its machine has
        been sent a stop command, when the request returns. */
    method StopRunTree(r: RunId, gatewayFails: set<RunId>, pauses: seq<Pause>)
        returns (ids: seq<RunId>, sent: map<RunId, MachineId>)
      requires Valid() && Rooted(db.runs)
      modifies db`runs, db`tasks, this`stopping, this`remoteActive, this`remoteStopping
      modifies machines`commands, machines`runOf, machines`transferOf
      ensures Distinct(ids) && forall q: RunId :: q in ids <==> q == r || Below(old(db.runs), r, q)
      ensures Stopping(sent) == StopAll(old(Stopping(map[])), ids, gatewayFails, pauses)
      ensures stopping <= old(stopping) && old(remoteStopping) <= remoteStopping <= old(remoteStopping) + sent.Keys
      ensures forall q | q in sent :: q in remoteStopping && StopQueued(machines, sent[q], q)
      ensures QuietPauses(old(Stopping(map[])), ids, gatewayFails, pauses) ==>
                forall q | q in ids && q < |db.runs| ::
                  db.runs[q].state.Terminal() || (q in sent && q in remoteStopping && StopQueued(machines, sent[q], q))
    {
      ids := TreeOf(r);
      ghost var start := Stopping(map[]);
      sent := StopEach(ids, gatewayFails, pauses);
      if QuietPauses(start, ids, gatewayFails, pauses) {
        QuietTreeStops(start, ids, gatewayFails, pauses);
        assert forall q | q in ids :: Stopped(Stopping(sent), q);
      }
    }
  }

  /** A command for the run waits in the machine's queue. */
  ghost predicate StopQueued(machines: Machines, machine: MachineId, r: RunId)
    reads machines
  {
    exists c: CommandId :: c < |machines.RowsOf(machine)| && machines.RowsOf(machine)[c].Pending?
                           && (machine, c) in machines.runOf && machines.runOf[(machine, c)] == r
  }
}
