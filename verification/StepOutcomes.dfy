/** What the remaining steps of the coordinator do, said of the rows, and what a crash between two statements leaves
    behind. */
module StepOutcomes {
  import opened Rows
  import opened Runs
  import opened Scheduler
  import opened Desk
  import opened Recovery
  import opened System
  import opened Admission
  import opened Crashes

  /** An admission step starts a run exactly if it may start and a slot is free. The run is then running, under its
      agent's profile of that moment and the next start number; without a profile it has failed. Other runs stay. */
  lemma AdmissionOutcome(sys: Sys, limits: Limits, r: RunId)
    ensures var sys' := Next(sys, limits, Admission(r));
            if r < |sys.s.runs| && |ActiveRuns(sys.s.runs)| < 4 && Startable(sys.s, sys.d.links.Keys, limits, r) then
              var agent := sys.s.runs[r].agent;
              if agent in sys.s.profiles then
                && sys'.d == sys.d
                && sys'.s == sys.s.(runs := sys.s.runs[r := sys.s.runs[r].(state := Running)],
                                    snapshots := sys.s.snapshots[r := sys.s.profiles[agent]],
                                    startedAt := sys.s.startedAt[r := sys.s.nextEvent], nextEvent := sys.s.nextEvent + 1)
              else sys'.s == sys.s.(runs := sys.s.runs[r := sys.s.runs[r].(state := Failed)])
            else sys' == sys
  {
    if r < |sys.s.runs| {
      EligibleIff(sys.s, sys.d.links.Keys, limits, r);
      var running := SetState(sys.s.runs, r, Running);
      assert SetState(running, r, Failed) == sys.s.runs[r := sys.s.runs[r].(state := Failed)];
      assert SyncRun(running, sys.d, r) == sys.d;
    }
  }

  /** A request for a run adds exactly the row that `createRun` accepts, and an agent that is being stopped is held back
      from that moment until it is released. Machine rows are replaced by what the machine reports. */
  lemma RequestOutcomes(sys: Sys, limits: Limits, agent: AgentId, parent: ParentRef, depth: int, m: MachineId, row: Machine)
    ensures var created, sys' := CreateRun(sys.s, limits, agent, parent, depth), Next(sys, limits, NewRun(agent, parent, depth));
            sys' == if created.Created? then Sys(sys.s.(runs := created.runs), sys.d) else sys
    ensures var held := Next(sys, limits, OfMoves(AgentStopping(agent, true)));
            && agent in held.s.stopping && held == Sys(sys.s.(stopping := held.s.stopping), sys.d)
            && forall a | a != agent :: a in held.s.stopping <==> a in sys.s.stopping
    ensures var free := Next(sys, limits, OfMoves(AgentStopping(agent, false)));
            && agent !in free.s.stopping && free == Sys(sys.s.(stopping := free.s.stopping), sys.d)
            && forall a | a != agent :: a in free.s.stopping <==> a in sys.s.stopping
    ensures Next(sys, limits, OfMoves(MachineSeen(m, row))) == Sys(sys.s.(machines := sys.s.machines[m := row]), sys.d)
  {}

  /** Importing a profile never replaces one that exists. */
  lemma ProfileImportOutcome(sys: Sys, limits: Limits, agent: AgentId, desired: Profile)
    ensures var sys' := Next(sys, limits, OfMoves(ProfileImport(agent, desired)));
            sys' == if agent in sys.s.profiles then sys else Sys(sys.s.(profiles := sys.s.profiles[agent := desired]), sys.d)
  {}

  /** What the database holds when the process ends inside an admission: the row is running; or it also has its snapshot but
      no start number; or, without a profile, it has failed; the boards have heard of nothing. And inside a state
      write: the row has its state, the boards have not heard of it. */
  lemma CutsInsideWrites(sys: Sys, limits: Limits, r: RunId, state: RunState)
    requires r < |sys.s.runs| && !state.Queued?
    ensures CutOff(sys, limits, StateWritten(r, state)) == Sys(sys.s.(runs := sys.s.runs[r := sys.s.runs[r].(state := state)]), sys.d)
    ensures MayAdmit(sys, limits, r) ==>
              var running, agent := sys.s.(runs := sys.s.runs[r := sys.s.runs[r].(state := Running)]), sys.s.runs[r].agent;
              && CutOff(sys, limits, RunningWritten(r)) == Sys(running, sys.d)
              && (agent in sys.s.profiles ==>
                    CutOff(sys, limits, SnapshotTaken(r)) == Sys(running.(snapshots := sys.s.snapshots[r := sys.s.profiles[agent]]), sys.d))
              && (agent !in sys.s.profiles ==>
                    CutOff(sys, limits, FailureWritten(r)) == Sys(sys.s.(runs := sys.s.runs[r := sys.s.runs[r].(state := Failed)]), sys.d))
  {
    assert SetState(SetState(sys.s.runs, r, Running), r, Failed) == sys.s.runs[r := sys.s.runs[r].(state := Failed)];
  }
}
