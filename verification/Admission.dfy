/** When a run is accepted and when it is started, said of the rows alone: the exact conditions behind
    `createRun` and `pump` (runtime/service.ts), and what `pump` leaves undone. */
module Admission {
  import opened Rows
  import opened Runs
  import opened Scheduler
  import opened Pump

  // ----- when a queued run may start -----

  /** An active run is counted under the profile it was started with, else under its agent's current one. */
  ghost predicate WorksUnder(s: Sched, q: RunId, p: Profile)
    requires q < |s.runs|
  {
    if q in s.snapshots then s.snapshots[q] == p else s.runs[q].agent in s.profiles && s.profiles[s.runs[q].agent] == p
  }

  /** The active runs on a machine, among the 100 newest rows. */
  ghost function RecentOn(s: Sched, machine: MachineId): set<RunId> {
    set q: RunId | q < |s.runs| && |s.runs| - 100 <= q && !s.runs[q].state.Queued? && !s.runs[q].state.Terminal()
                   && exists p: Profile :: WorksUnder(s, q, p) && p.machine == machine
  }

  /** There is a place for a run of the agent under this profile. */
  ghost predicate HasPlace(s: Sched, p: Profile, agent: AgentId) {
    && p.machine in s.machines
    && (var row := s.machines[p.machine]; row.online && !row.revoked && (row.reserved == None || row.reserved == Some(agent)))
    && |RecentOn(s, p.machine)| < p.concurrency
    && (p.desktop == Existing ==> forall q: RunId, other: Profile | q in RecentOn(s, p.machine) && WorksUnder(s, q, other) ::
          other.desktop != Existing)
  }

  /** A queued run of an idle agent that is neither being stopped nor moved; one more run stays within the
      limit for tasks and, without a delegating parent, for top-level runs; and there is a place for it. */
  ghost predicate Startable(s: Sched, linked: set<RunId>, limits: Limits, r: RunId)
    requires r < |s.runs|
  {
    var run := s.runs[r];
    && run.state.Queued?
    && (forall q: RunId | q < |s.runs| && s.runs[q].agent == run.agent :: s.runs[q].state.Queued? || s.runs[q].state.Terminal())
    && run.agent !in s.stopping
    && (forall t | t in s.transfers && t.agent == run.agent :: t.state == Moved || t.state == Abandoned)
    && (r in linked ==> |set q: RunId | q < |s.runs| && q in linked && s.runs[q].state.Active()| < limits.taskRuns)
    && (run.depth <= 0 ==> |set q: RunId | q < |s.runs| && s.runs[q].state.Active() && s.runs[q].depth == 0| < 2)
    && (run.agent in s.profiles ==> HasPlace(s, s.profiles[run.agent], run.agent))
  }

  lemma ActiveIsNeitherQueuedNorEnded(state: RunState)
    ensures state.Active() <==> !state.Queued? && !state.Terminal()
  {}

  lemma WorksUnderCounted(s: Sched, q: RunId, p: Profile)
    requires q < |s.runs|
    ensures WorksUnder(s, q, p) <==> CountedProfile(s, q) == Some(p)
  {}

  lemma RecentOnIsSeen(s: Sched, machine: MachineId)
    ensures RecentOn(s, machine) == SeenOccupants(s, machine)
  {
    forall q: RunId | q < |s.runs| ensures q in RecentOn(s, machine) <==> q in SeenOccupants(s, machine) {
      ActiveIsNeitherQueuedNorEnded(s.runs[q].state);
      forall p: Profile ensures WorksUnder(s, q, p) <==> CountedProfile(s, q) == Some(p) { WorksUnderCounted(s, q, p); }
      if CountedProfile(s, q).Some? { assert WorksUnder(s, q, CountedProfile(s, q).value); }
    }
  }

  lemma HasPlaceIff(s: Sched, agent: AgentId)
    requires agent in s.profiles
    ensures HasPlace(s, s.profiles[agent], agent) <==> MachineFree(s, agent)
  {
    var p := s.profiles[agent];
    RecentOnIsSeen(s, p.machine);
    forall q: RunId, other: Profile | q in SeenOccupants(s, p.machine)
      ensures WorksUnder(s, q, other) <==> CountedProfile(s, q) == Some(other)
    {
      WorksUnderCounted(s, q, other);
    }
    forall q: RunId | q in SeenOccupants(s, p.machine) ensures WorksUnder(s, q, CountedProfile(s, q).value) {}
  }

  lemma IdleIff(runs: seq<Run>, agent: AgentId)
    ensures !AgentBusy(runs, agent) <==>
              forall q: RunId | q < |runs| && runs[q].agent == agent :: runs[q].state.Queued? || runs[q].state.Terminal()
  {
    forall q: RunId | q < |runs| ensures runs[q].state.Active() <==> !runs[q].state.Queued? && !runs[q].state.Terminal() {
      ActiveIsNeitherQueuedNorEnded(runs[q].state);
    }
  }

  lemma NotMovingIff(s: Sched, agent: AgentId)
    ensures !Transferring(s, agent) <==> forall t | t in s.transfers && t.agent == agent :: t.state == Moved || t.state == Abandoned
  {
    if t :| t in s.transfers && t.agent == agent && t.state != Moved && t.state != Abandoned {
      var i :| 0 <= i < |s.transfers| && s.transfers[i] == t;
      assert s.transfers[i].state.InProgress();
    }
  }

  lemma CountsAre(runs: seq<Run>, linked: set<RunId>)
    ensures ActiveRuns(runs) * linked == set q: RunId | q < |runs| && q in linked && runs[q].state.Active()
    ensures TopLevelRuns(runs) == set q: RunId | q < |runs| && runs[q].state.Active() && runs[q].depth == 0
  {}

  /** What `pump` tests is exactly that. */
  lemma EligibleIff(s: Sched, linked: set<RunId>, limits: Limits, r: RunId)
    requires r < |s.runs|
    ensures Eligible(s, linked, limits, r) <==> Startable(s, linked, limits, r)
  {
    var agent := s.runs[r].agent;
    IdleIff(s.runs, agent);
    NotMovingIff(s, agent);
    CountsAre(s.runs, linked);
    if agent in s.profiles { HasPlaceIff(s, agent); }
  }

  // ----- what pump does and leaves undone -----

  /** Each round takes the oldest startable run among the 100 oldest queued ones, and finds none exactly
      if every startable run has 100 older queued ones. */
  lemma PicksTheOldest(s: Sched, linked: set<RunId>, limits: Limits)
    ensures var next := Next(s, linked, limits);
            && (next.Some? ==>
                  && next.value < |s.runs| && Startable(s, linked, limits, next.value)
                  && |QueuedBetween(s.runs, 0, next.value)| < 100
                  && forall q: RunId | q < next.value :: !Startable(s, linked, limits, q))
            && (next.None? <==> forall q: RunId | q < |s.runs| && Startable(s, linked, limits, q) ::
                  |QueuedBetween(s.runs, 0, q)| >= 100)
  {
    forall q: RunId | q < |s.runs| ensures Eligible(s, linked, limits, q) <==> Startable(s, linked, limits, q) {
      EligibleIff(s, linked, limits, q);
    }
    FirstEligiblePicks(s, linked, limits, 0, 0);
    NextIsInReach(s, linked, limits, 0, 0);
    FindsNothingIff(s, linked, limits);
  }

  /** When the loop stops, four runs are active or every run that could still start has 100 older queued ones. */
  lemma PumpSettles(s: Sched, linked: set<RunId>, limits: Limits)
    ensures var s' := PumpAll(s, linked, limits);
            |ActiveRuns(s'.runs)| < 4 ==>
              forall q: RunId | q < |s'.runs| && Startable(s', linked, limits, q) :: |QueuedBetween(s'.runs, 0, q)| >= 100
  {
    var s' := PumpAll(s, linked, limits);
    PumpEnds(s, linked, limits);
    PicksTheOldest(s', linked, limits);
  }

  /** With a queue limit of at most 100 no run is left waiting that could start beside a free slot. */
  lemma PumpIsWorkConserving(s: Sched, linked: set<RunId>, limits: Limits)
    requires Capacity(s.runs, linked, limits) && limits.queue <= 100
    ensures var s' := PumpAll(s, linked, limits);
            || |ActiveRuns(s'.runs)| == 4
            || forall q: RunId | q < |s'.runs| :: !Startable(s', linked, limits, q)
  {
    var s' := PumpAll(s, linked, limits);
    PumpSettles(s, linked, limits);
    PumpKeepsCapacity(s, linked, limits);
    if |ActiveRuns(s'.runs)| < 4 {
      forall q: RunId | q < |s'.runs| && Startable(s', linked, limits, q) ensures false {
        QueuedBefore(s'.runs, q);
      }
    }
  }

  lemma QueuedBefore(runs: seq<Run>, q: RunId)
    requires q < |runs| && runs[q].state.Queued?
    ensures |QueuedBetween(runs, 0, q)| < |QueuedRuns(runs)|
  {
    assert QueuedBetween(runs, 0, q) + {q} <= QueuedRuns(runs);
    Cardinality(QueuedBetween(runs, 0, q) + {q}, QueuedRuns(runs));
  }

  /** With a free slot, a queued run of natural depth is held back only for what would break a limit: it may
      start exactly if its agent is neither being stopped nor moved, its machine takes it, and all limits
      of runs and machines hold afterwards. */
  lemma HeldBackOnlyForLimits(s: Sched, linked: set<RunId>, limits: Limits, r: RunId)
    requires Capacity(s.runs, linked, limits) && Records(s) && MachineLimits(s)
    requires r < |s.runs| && s.runs[r].state.Queued? && 0 <= s.runs[r].depth && |ActiveRuns(s.runs)| < 4
    requires s.runs[r].agent in s.profiles && InWindow(s, s.profiles[s.runs[r].agent].machine)
    ensures var agent := s.runs[r].agent; var p := s.profiles[agent];
            Startable(s, linked, limits, r) <==>
              && agent !in s.stopping && (forall t | t in s.transfers && t.agent == agent :: t.state == Moved || t.state == Abandoned)
              && CanAssign(s.machines, p.machine, agent) && s.machines[p.machine].online
              && Capacity(Admit(s, r).runs, linked, limits) && MachineLimits(Admit(s, r))
  {
    var agent := s.runs[r].agent;
    EligibleIff(s, linked, limits, r);
    NotMovingIff(s, agent);
    WriteKeepsCapacityIff(s.runs, linked, limits, r, Running);
    AdmitKeepsMachineLimitsIff(s, r);
    MachineFreeIsRoom(s, agent);
  }

  lemma MachineFreeIsRoom(s: Sched, agent: AgentId)
    requires Records(s) && agent in s.profiles && InWindow(s, s.profiles[agent].machine)
    ensures var p := s.profiles[agent];
            MachineFree(s, agent) <==> CanAssign(s.machines, p.machine, agent) && s.machines[p.machine].online && RoomOnMachine(s, p)
  {
    var p := s.profiles[agent];
    SeenAllIffInWindow(s, p.machine);
    forall q: RunId | q in Occupants(s, p.machine) ensures CountedProfile(s, q) == Some(s.snapshots[q]) {}
    forall q: RunId | q in Occupants(s, p.machine) ensures CountedProfile(s, q).value.desktop == Existing <==> UsesDesktop(s, q, p.machine) {}
  }

  // ----- when a run is accepted -----

  ghost predicate Known(runs: seq<Run>, parent: ParentRef) { parent.Of? && parent.id < |runs| }

  /** One level below a known parent; otherwise the level the request names. */
  ghost function Level(runs: seq<Run>, parent: ParentRef, depth: int): int {
    if Known(runs, parent) then runs[parent.id].depth + 1 else depth
  }

  ghost predicate OnLine(runs: seq<Run>, parent: ParentRef, agent: AgentId)
    requires Known(runs, parent)
  {
    exists q: RunId | q in Line(runs, parent.id) :: q < |runs| && runs[q].agent == agent
  }

  lemma {:induction false} LineAgentsAre(runs: seq<Run>, r: RunId, agent: AgentId)
    requires r < |runs|
    ensures agent in LineAgents(runs, r) <==> exists q: RunId | q in Line(runs, r) :: q < |runs| && runs[q].agent == agent
    decreases r
  {
    if runs[r].parent.Of? && runs[r].parent.id < r {
      var p := runs[r].parent.id;
      LineAgentsAre(runs, p, agent);
      assert Line(runs, r) == [r] + Line(runs, p);
      assert forall q: RunId :: q in Line(runs, r) <==> q == r || q in Line(runs, p);
    } else {
      assert Line(runs, r) == [r];
    }
  }

  /** A run is created exactly if the agent has a profile, the level is at most two, nobody on the delegating
      line is the agent, and the queue has room. Otherwise the first of these that fails is reported, and
      nothing is created. */
  lemma CreatedIff(s: Sched, limits: Limits, agent: AgentId, parent: ParentRef, depth: int)
    ensures var level, known := Level(s.runs, parent, depth), Known(s.runs, parent);
            var result := CreateRun(s, limits, agent, parent, depth);
            && (result.Created? <==>
                  && agent in s.profiles && level <= 2 && (known ==> !OnLine(s.runs, parent, agent))
                  && |set q: RunId | q < |s.runs| && s.runs[q].state.Queued?| < limits.queue)
            && (result == Refused(NoAgent) <==> agent !in s.profiles)
            && (result == Refused(TooDeep) <==> agent in s.profiles && 2 < level)
            && (result == Refused(Cyclic) <==> agent in s.profiles && level <= 2 && known && OnLine(s.runs, parent, agent))
            && (result.Created? ==>
                  && result.run == |s.runs|
                  && result.runs == s.runs + [Run(agent, if parent.Of? && !known then Unknown else parent, level, Queued)])
  {
    if Known(s.runs, parent) { LineAgentsAre(s.runs, parent.id, agent); }
    assert QueuedRuns(s.runs) == set q: RunId | q < |s.runs| && s.runs[q].state.Queued?;
  }
}
