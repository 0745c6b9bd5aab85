/** Starting the coordinator on whatever a crash left in the database. */
module Recovery {
  import opened Rows
  import opened Runs
  import opened Scheduler
  import opened Moves
  import opened Desk
  import opened Links

  datatype Sys = Sys(s: Sched, d: Desk)

  // ----- the start-up statements -----

  /** Opening the run table interrupts every active run; opening the boards then interrupts every
      queued run of a task. */
  function RecoveredState(state: RunState, linked: bool): RunState {
    if state.Active() || (state.Queued? && linked) then Interrupted else state
  }

  function RecoverRuns(runs: seq<Run>, linked: set<RunId>): (runs': seq<Run>)
    ensures |runs'| == |runs|
    ensures forall r: RunId | r < |runs| :: runs'[r] == runs[r].(state := RecoveredState(runs[r].state, r in linked))
  {
    seq(|runs|, r requires 0 <= r < |runs| => runs[r].(state := RecoveredState(runs[r].state, r in linked)))
  }

  predicate HasEndedRun(runs: seq<Run>, task: Task) {
    task.activeRun.Some? && task.activeRun.value < |runs| && runs[task.activeRun.value].state.Terminal()
  }

  /** `reconcile` replays the listener for every task whose active run has ended. */
  function Reconciled(runs: seq<Run>, d: Desk): Desk {
    d.(tasks := map t | t in d.tasks ::
         if HasEndedRun(runs, d.tasks[t]) then
           var r := d.tasks[t].activeRun.value;
           var synced := SyncRun(runs, d, r);
           if t in synced.tasks then synced.tasks[t] else d.tasks[t]
         else d.tasks[t])
  }

  /** The destinations of the interrupted transfers are released, in table order. */
  function ReleaseAll(machines: map<MachineId, Machine>, transfers: seq<Transfer>): map<MachineId, Machine> {
    if transfers == [] then machines
    else
      var rest := ReleaseAll(machines, transfers[..|transfers| - 1]);
      var t := transfers[|transfers| - 1];
      if t.state.InProgress() then Reserve(rest, t.destination, t.agent, false) else rest
  }

  function RecoverTransfers(transfers: seq<Transfer>): (transfers': seq<Transfer>)
    ensures |transfers'| == |transfers|
    ensures forall i | 0 <= i < |transfers| :: transfers'[i] ==
              transfers[i].(state := if transfers[i].state.InProgress() then Abandoned else transfers[i].state, live := false)
  {
    seq(|transfers|, i requires 0 <= i < |transfers| =>
      transfers[i].(state := if transfers[i].state.InProgress() then Abandoned else transfers[i].state, live := false))
  }

  function Boot(sys: Sys): Sys {
    var runs := RecoverRuns(sys.s.runs, sys.d.links.Keys);
    Sys(sys.s.(runs := runs,
               machines := ReleaseAll(sys.s.machines, sys.s.transfers),
               transfers := RecoverTransfers(sys.s.transfers),
               stopping := {}, drafts := map[]),
        Reconciled(runs, sys.d))
  }

  // ----- what every crash leaves intact -----

  /** The part of the link between tasks and runs that single statements cannot break: a task's
      active run is one of its own, and every link names an existing run and task. */
  ghost predicate LinkedRows(runs: seq<Run>, d: Desk) {
    && (forall t | t in d.tasks && d.tasks[t].activeRun.Some? ::
          var r := d.tasks[t].activeRun.value; r < |runs| && r in d.links && d.links[r].task == t)
    && (forall r | r in d.links :: r < |runs| && d.links[r].task in d.tasks)
  }

  lemma LinkInvHasLinkedRows(runs: seq<Run>, d: Desk)
    requires LinkInv(runs, d)
    ensures LinkedRows(runs, d)
  {}

  /** Between the two halves of a state write, row first and listener second, the rows are linked. */
  lemma SyncKeepsLinkedRows(runs: seq<Run>, d: Desk, r: RunId)
    requires LinkedRows(runs, d) && r < |runs|
    ensures LinkedRows(runs, SyncRun(runs, d, r))
  {}

  lemma InterruptedWriteHasLinkedRows(runs: seq<Run>, d: Desk, r: RunId, state: RunState)
    requires LinkInv(runs, d) && r < |runs|
    ensures LinkedRows(SetState(runs, r, state), d) && LinkedRows(SetState(runs, r, state), AfterWrite(runs, d, r, state))
  {
    LinkInvHasLinkedRows(runs, d);
    assert LinkedRows(SetState(runs, r, state), d);
    SyncKeepsLinkedRows(SetState(runs, r, state), d, r);
  }

  // ----- what is recovered -----

  lemma BootedRuns(sys: Sys)
    ensures var runs, runs' := sys.s.runs, Boot(sys).s.runs;
            && |runs'| == |runs|
            && (forall r: RunId | r < |runs| ::
                  && !runs'[r].state.Active()
                  && (r in sys.d.links ==> runs'[r].state.Terminal())
                  && (runs[r].state.Terminal() || (runs[r].state.Queued? && r !in sys.d.links) ==> runs'[r] == runs[r])
                  && (runs[r].state.Active() || (runs[r].state.Queued? && r in sys.d.links) ==> runs'[r] == runs[r].(state := Interrupted)))
  {}

  lemma ReconciledTask(runs: seq<Run>, d: Desk, t: TaskId)
    requires LinkedRows(runs, d) && t in d.tasks
    ensures var task, task' := d.tasks[t], Reconciled(runs, d).tasks[t];
            && SameLockedFields(task, task')
            && (task'.activeRun == None || task'.activeRun == task.activeRun)
            && (task'.activeRun.Some? <==>
                  task.activeRun.Some? && (HasEndedRun(runs, task) ==>
                    runs[task.activeRun.value].state.Completed? && DoneStage(d, task.board).None?))
  {}

  lemma RecoveredRun(runs: seq<Run>, linked: set<RunId>, r: RunId)
    requires r < |runs| && r in linked
    ensures var runs' := RecoverRuns(runs, linked);
            runs'[r].state.Terminal() && (runs'[r].state.Completed? <==> runs[r].state.Completed?)
  {}

  /** What the start makes of one task. */
  ghost predicate TaskRecovered(runs: seq<Run>, d: Desk, task: Task, task': Task) {
    && SameLockedFields(task, task')
    && (task'.activeRun == None || task'.activeRun == task.activeRun)
    && (task'.activeRun.Some? <==>
          task.activeRun.Some? && task.activeRun.value < |runs| && runs[task.activeRun.value].state.Completed?
          && DoneStage(d, task.board).None?)
  }

  lemma BootedTask(sys: Sys, t: TaskId)
    requires LinkedRows(sys.s.runs, sys.d) && t in sys.d.tasks
    ensures t in Boot(sys).d.tasks && TaskRecovered(sys.s.runs, sys.d, sys.d.tasks[t], Boot(sys).d.tasks[t])
  {
    var runs' := RecoverRuns(sys.s.runs, sys.d.links.Keys);
    var active := sys.d.tasks[t].activeRun;
    assert LinkedRows(runs', sys.d);
    if active.Some? { RecoveredRun(sys.s.runs, sys.d.links.Keys, active.value); }
    ReconciledTask(runs', sys.d, t);
  }

  lemma ReconciledTasksOnly(runs: seq<Run>, d: Desk)
    ensures var d' := Reconciled(runs, d); d'.tasks.Keys == d.tasks.Keys && d' == d.(tasks := d'.tasks)
  {}

  /** A task holds an active run after the start exactly if its run had completed and its board has
      no stage for completed work. */
  lemma BootedTasks(sys: Sys)
    requires LinkedRows(sys.s.runs, sys.d)
    ensures var d, d' := sys.d, Boot(sys).d;
            && d'.tasks.Keys == d.tasks.Keys && d' == d.(tasks := d'.tasks)
            && forall t | t in d.tasks :: TaskRecovered(sys.s.runs, d, d.tasks[t], d'.tasks[t])
  {
    ReconciledTasksOnly(RecoverRuns(sys.s.runs, sys.d.links.Keys), sys.d);
    forall t | t in sys.d.tasks ensures TaskRecovered(sys.s.runs, sys.d, sys.d.tasks[t], Boot(sys).d.tasks[t]) {
      BootedTask(sys, t);
    }
  }

  lemma {:induction false} ReleasedMachines(machines: map<MachineId, Machine>, transfers: seq<Transfer>, i: nat)
    requires i < |transfers| && transfers[i].state.InProgress()
    ensures var machines' := ReleaseAll(machines, transfers); var t := transfers[i];
            t.destination in machines' ==> machines'[t.destination].reserved != Some(t.agent)
    decreases |transfers|
  {
    var n := |transfers| - 1;
    if i < n { ReleasedMachines(machines, transfers[..n], i); }
  }

  /** A machine loses its reservation only to a transfer that was interrupted on its way there. */
  lemma {:induction false} OtherReservationsKept(machines: map<MachineId, Machine>, transfers: seq<Transfer>, m: MachineId)
    requires m in machines
    ensures var machines' := ReleaseAll(machines, transfers);
            && machines'.Keys == machines.Keys
            && (machines'[m] != machines[m] ==>
                  && machines'[m] == machines[m].(reserved := None)
                  && exists i | 0 <= i < |transfers| ::
                       transfers[i].state.InProgress() && transfers[i].destination == m && machines[m].reserved == Some(transfers[i].agent))
    decreases |transfers|
  {
    if transfers != [] {
      var n := |transfers| - 1;
      OtherReservationsKept(machines, transfers[..n], m);
      if machines[m].reserved == Some(transfers[n].agent) && transfers[n].destination == m && transfers[n].state.InProgress() {
        assert transfers[n].state.InProgress();
      }
      assert forall i | 0 <= i < n :: transfers[..n][i] == transfers[i];
    }
  }

  lemma BootedTransfers(sys: Sys)
    ensures var s, s' := sys.s, Boot(sys).s;
            && (forall i | 0 <= i < |s'.transfers| :: !s'.transfers[i].state.InProgress())
            && forall i | 0 <= i < |s.transfers| && s.transfers[i].state.InProgress() ::
                 s.transfers[i].destination in s'.machines ==> s'.machines[s.transfers[i].destination].reserved != Some(s.transfers[i].agent)
  {
    forall i | 0 <= i < |sys.s.transfers| && sys.s.transfers[i].state.InProgress()
      ensures sys.s.transfers[i].destination in Boot(sys).s.machines ==>
                Boot(sys).s.machines[sys.s.transfers[i].destination].reserved != Some(sys.s.transfers[i].agent)
    {
      ReleasedMachines(sys.s.machines, sys.s.transfers, i);
    }
  }

  lemma BootedRunsOfTasks(sys: Sys)
    requires LinkedRows(sys.s.runs, sys.d)
    ensures ActiveRuns(Boot(sys).s.runs) == {} && Boot(sys).d.links == sys.d.links
    ensures forall r | r in sys.d.links :: r < |Boot(sys).s.runs| && Boot(sys).s.runs[r].state.Terminal()
  {
    BootedRuns(sys);
  }

  /** Recovery from any crash point. Every run that was running or waiting, and every queued run of a task, is
      interrupted. No run is running or waiting, no run of a task is live, and no
      transfer is in progress or keeps its destination reserved. Other queued runs and ended runs are
      unchanged. A task keeps an active run only if that run completed and its board cannot place it. */
  lemma BootRecovers(sys: Sys)
    requires LinkedRows(sys.s.runs, sys.d)
    ensures var sys' := Boot(sys);
            && ActiveRuns(sys'.s.runs) == {}
            && (forall r | r in sys'.d.links :: r < |sys'.s.runs| && sys'.s.runs[r].state.Terminal())
            && sys'.s == sys.s.(runs := sys'.s.runs, machines := sys'.s.machines, transfers := sys'.s.transfers, stopping := {}, drafts := map[])
            && |sys'.s.runs| == |sys.s.runs|
            && (forall r: RunId | r < |sys.s.runs| && (sys.s.runs[r].state.Active() || (sys.s.runs[r].state.Queued? && r in sys.d.links)) ::
                  sys'.s.runs[r] == sys.s.runs[r].(state := Interrupted))
            && (forall r: RunId | r < |sys.s.runs| && sys.s.runs[r].state.Queued? && r !in sys.d.links ::
                  sys'.s.runs[r] == sys.s.runs[r])
            && (forall r: RunId | r < |sys.s.runs| && sys.s.runs[r].state.Terminal() :: sys'.s.runs[r] == sys.s.runs[r])
            && (forall i | 0 <= i < |sys'.s.transfers| :: !sys'.s.transfers[i].state.InProgress())
            && (forall i | 0 <= i < |sys.s.transfers| && sys.s.transfers[i].state.InProgress() ::
                  sys.s.transfers[i].destination in sys'.s.machines ==>
                    sys'.s.machines[sys.s.transfers[i].destination].reserved != Some(sys.s.transfers[i].agent))
            && (forall t | t in sys.d.tasks :: t in sys'.d.tasks
                  && (sys'.d.tasks[t].activeRun.Some? <==>
                        sys.d.tasks[t].activeRun.Some? && sys.s.runs[sys.d.tasks[t].activeRun.value].state.Completed?
                        && DoneStage(sys.d, sys.d.tasks[t].board).None?))
  {
    BootedRuns(sys);
    BootedRunsOfTasks(sys);
    BootedTasks(sys);
    BootedTransfers(sys);
  }
}
