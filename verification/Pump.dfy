/** The admission loop: which run each iteration picks, that it ends, and what holds when it does. */
module Pump {
  import opened Rows
  import opened Runs
  import opened Scheduler

  /** `store.queued().find(...)`: the first eligible run among the first 100 queued ones. `seen`
      counts the queued rows already read. */
  function FirstEligible(s: Sched, linked: set<RunId>, limits: Limits, i: nat, seen: nat): Option<RunId>
    requires i <= |s.runs|
    decreases |s.runs| - i
  {
    if i == |s.runs| || seen == READ_LIMIT then None
    else if !s.runs[i].state.Queued? then FirstEligible(s, linked, limits, i + 1, seen)
    else if Eligible(s, linked, limits, i) then Some(i)
    else FirstEligible(s, linked, limits, i + 1, seen + 1)
  }

  function Next(s: Sched, linked: set<RunId>, limits: Limits): Option<RunId> {
    FirstEligible(s, linked, limits, 0, 0)
  }

  ghost function QueuedBetween(runs: seq<Run>, i: nat, r: RunId): set<RunId> {
    set q: RunId | i <= q < r && q < |runs| && runs[q].state.Queued?
  }

  lemma {:induction false} FirstEligiblePicks(s: Sched, linked: set<RunId>, limits: Limits, i: nat, seen: nat)
    requires i <= |s.runs|
    ensures var next := FirstEligible(s, linked, limits, i, seen);
            next.Some? ==>
              && i <= next.value < |s.runs|
              && Eligible(s, linked, limits, next.value)
              && forall q: RunId | i <= q < next.value :: !Eligible(s, linked, limits, q)
    decreases |s.runs| - i
  {
    if i < |s.runs| && seen != READ_LIMIT && !Eligible(s, linked, limits, i) {
      FirstEligiblePicks(s, linked, limits, i + 1, seen + if s.runs[i].state.Queued? then 1 else 0);
    }
  }

  lemma QueuedBetweenStep(runs: seq<Run>, i: nat, q: RunId)
    requires i < q <= |runs|
    ensures |QueuedBetween(runs, i, q)| == |QueuedBetween(runs, i + 1, q)| + if runs[i].state.Queued? then 1 else 0
  {
    assert QueuedBetween(runs, i, q) == QueuedBetween(runs, i + 1, q) + if runs[i].state.Queued? then {i} else {};
  }

  lemma {:induction false} NoneIsOutOfReach(s: Sched, linked: set<RunId>, limits: Limits, i: nat, seen: nat, q: RunId)
    requires i <= q < |s.runs| && seen <= READ_LIMIT
    requires FirstEligible(s, linked, limits, i, seen).None? && Eligible(s, linked, limits, q)
    ensures seen + |QueuedBetween(s.runs, i, q)| >= READ_LIMIT
    decreases |s.runs| - i
  {
    if seen < READ_LIMIT {
      assert i < q;
      NoneIsOutOfReach(s, linked, limits, i + 1, seen + if s.runs[i].state.Queued? then 1 else 0, q);
      QueuedBetweenStep(s.runs, i, q);
    }
  }

  lemma {:induction false} NextIsInReach(s: Sched, linked: set<RunId>, limits: Limits, i: nat, seen: nat)
    requires i <= |s.runs| && seen <= READ_LIMIT
    ensures var next := FirstEligible(s, linked, limits, i, seen);
            next.Some? ==> i <= next.value < |s.runs| && seen + |QueuedBetween(s.runs, i, next.value)| < READ_LIMIT
    decreases |s.runs| - i
  {
    var next := FirstEligible(s, linked, limits, i, seen);
    if next.Some? {
      if next.value == i && s.runs[i].state.Queued? && Eligible(s, linked, limits, i) {
        assert QueuedBetween(s.runs, i, i) == {};
      } else {
        NextIsInReach(s, linked, limits, i + 1, seen + if s.runs[i].state.Queued? then 1 else 0);
        QueuedBetweenStep(s.runs, i, next.value);
      }
    }
  }

  /** A round finds nothing exactly if every eligible run has at least 100 older queued ones. */
  lemma FindsNothingIff(s: Sched, linked: set<RunId>, limits: Limits)
    ensures Next(s, linked, limits).None?
            <==> forall q: RunId | q < |s.runs| && Eligible(s, linked, limits, q) :: |QueuedBetween(s.runs, 0, q)| >= READ_LIMIT
  {
    FirstEligiblePicks(s, linked, limits, 0, 0);
    NextIsInReach(s, linked, limits, 0, 0);
    if Next(s, linked, limits).None? {
      forall q: RunId | q < |s.runs| && Eligible(s, linked, limits, q) ensures |QueuedBetween(s.runs, 0, q)| >= READ_LIMIT {
        NoneIsOutOfReach(s, linked, limits, 0, 0, q);
      }
    }
  }

  lemma QueueWithout(runs: seq<Run>, r: RunId, state: RunState)
    requires r < |runs| && runs[r].state.Queued? && !state.Queued?
    ensures QueuedRuns(SetState(runs, r, state)) == QueuedRuns(runs) - {r} && r in QueuedRuns(runs)
  {}

  lemma AdmitShrinksQueue(s: Sched, r: RunId)
    requires r < |s.runs| && s.runs[r].state.Queued?
    ensures QueuedRuns(Admit(s, r).runs) == QueuedRuns(s.runs) - {r}
    ensures |QueuedRuns(Admit(s, r).runs)| < |QueuedRuns(s.runs)|
  {
    QueueWithout(s.runs, r, Running);
    QueueWithout(s.runs, r, Failed);
    assert SetState(SetState(s.runs, r, Running), r, Failed) == SetState(s.runs, r, Failed);
  }

  /** One round takes an eligible run out of the queue. */
  lemma RoundAdmits(s: Sched, linked: set<RunId>, limits: Limits)
    requires Next(s, linked, limits).Some?
    ensures var r := Next(s, linked, limits).value;
            r < |s.runs| && Eligible(s, linked, limits, r) && |QueuedRuns(Admit(s, r).runs)| < |QueuedRuns(s.runs)|
  {
    FirstEligiblePicks(s, linked, limits, 0, 0);
    AdmitShrinksQueue(s, Next(s, linked, limits).value);
  }

  /** The whole loop of `pump`. */
  function PumpAll(s: Sched, linked: set<RunId>, limits: Limits): Sched
    decreases |QueuedRuns(s.runs)|
  {
    var next := Next(s, linked, limits);
    if |ActiveRuns(s.runs)| >= MAX_ACTIVE || next.None? then s
    else
      RoundAdmits(s, linked, limits);
      PumpAll(Admit(s, next.value), linked, limits)
  }

  /** When the loop stops, the slots are full or a further round finds nothing. */
  lemma {:induction false} PumpEnds(s: Sched, linked: set<RunId>, limits: Limits)
    ensures var s' := PumpAll(s, linked, limits); |ActiveRuns(s'.runs)| >= MAX_ACTIVE || Next(s', linked, limits).None?
    decreases |QueuedRuns(s.runs)|
  {
    var next := Next(s, linked, limits);
    if |ActiveRuns(s.runs)| < MAX_ACTIVE && next.Some? {
      RoundAdmits(s, linked, limits);
      PumpEnds(Admit(s, next.value), linked, limits);
    }
  }

  lemma {:induction false} PumpKeepsCapacity(s: Sched, linked: set<RunId>, limits: Limits)
    requires Capacity(s.runs, linked, limits)
    ensures Capacity(PumpAll(s, linked, limits).runs, linked, limits)
    ensures QueuedRuns(PumpAll(s, linked, limits).runs) <= QueuedRuns(s.runs)
    decreases |QueuedRuns(s.runs)|
  {
    var next := Next(s, linked, limits);
    if |ActiveRuns(s.runs)| < MAX_ACTIVE && next.Some? {
      RoundAdmits(s, linked, limits);
      AdmitKeepsCapacity(s, linked, limits, next.value);
      AdmitShrinksQueue(s, next.value);
      PumpKeepsCapacity(Admit(s, next.value), linked, limits);
    }
  }

  /** The agent may work: nobody stops or moves it, and its machine is online and open to it. */
  ghost predicate Ready(s: Sched, agent: AgentId) {
    && agent !in s.stopping && !Transferring(s, agent)
    && (agent in s.profiles ==> CanAssign(s.machines, s.profiles[agent].machine, agent) && s.machines[s.profiles[agent].machine].online)
  }

  /** What one call of `pump` may do to a run: nothing, start it, or, without a profile, fail it. */
  ghost predicate PumpedRun(s: Sched, s': Sched, r: RunId)
    requires r < |s.runs| && r < |s'.runs|
  {
    var agent := s.runs[r].agent;
    if s'.runs[r] == s.runs[r] then true
    else
      && s.runs[r].state.Queued? && Ready(s, agent)
      && s'.runs[r] == s.runs[r].(state := if agent in s.profiles then Running else Failed)
      && (agent in s.profiles ==> r in s'.snapshots && s'.snapshots[r] == s.profiles[agent])
  }

  ghost predicate SameSurroundings(s: Sched, s': Sched) {
    && |s'.runs| == |s.runs| && s'.profiles == s.profiles && s'.machines == s.machines && s'.transfers == s.transfers
    && s'.stopping == s.stopping
  }

  lemma AdmittedIsPumped(s: Sched, linked: set<RunId>, limits: Limits, q: RunId, r: RunId)
    requires q < |s.runs| && r < |s.runs| && Eligible(s, linked, limits, q)
    ensures SameSurroundings(s, Admit(s, q)) && PumpedRun(s, Admit(s, q), r)
    ensures r != q ==> Admit(s, q).runs[r] == s.runs[r]
    ensures r == q ==> !Admit(s, q).runs[r].state.Queued?
    ensures r != q && r in s.snapshots ==> r in Admit(s, q).snapshots && Admit(s, q).snapshots[r] == s.snapshots[r]
  {}

  /** A whole call starts queued runs only, each with its agent's current profile, on an online machine
      the agent may use, and none of an agent that is being stopped or moved. */
  lemma {:induction false} PumpStartsOnlyReadyRuns(s: Sched, linked: set<RunId>, limits: Limits, r: RunId)
    requires r < |s.runs|
    ensures var s' := PumpAll(s, linked, limits);
            && SameSurroundings(s, s') && PumpedRun(s, s', r)
            && (!s.runs[r].state.Queued? ==> s'.runs[r] == s.runs[r])
            && (!s.runs[r].state.Queued? && r in s.snapshots ==> r in s'.snapshots && s'.snapshots[r] == s.snapshots[r])
    decreases |QueuedRuns(s.runs)|
  {
    var next := Next(s, linked, limits);
    if |ActiveRuns(s.runs)| < MAX_ACTIVE && next.Some? {
      RoundAdmits(s, linked, limits);
      AdmittedIsPumped(s, linked, limits, next.value, r);
      PumpStartsOnlyReadyRuns(Admit(s, next.value), linked, limits, r);
    }
  }

  lemma StartedRecord(s: Sched, r: RunId, p: Profile)
    requires Records(s) && r < |s.runs| && s.runs[r].state.Queued?
    ensures Records(s.(runs := SetState(s.runs, r, Running), snapshots := s.snapshots[r := p],
                       startedAt := s.startedAt[r := s.nextEvent], nextEvent := s.nextEvent + 1))
  {}

  lemma AdmitKeepsRecords(s: Sched, r: RunId)
    requires Records(s) && r < |s.runs| && s.runs[r].state.Queued?
    ensures Records(Admit(s, r))
  {
    var agent := s.runs[r].agent;
    if agent in s.profiles {
      StartedRecord(s, r, s.profiles[agent]);
    } else {
      assert SetState(SetState(s.runs, r, Running), r, Failed) == SetState(s.runs, r, Failed);
    }
  }

  /** Every queued or active run is among the 100 newest. */
  ghost predicate LiveInWindow(runs: seq<Run>) {
    forall r: RunId | r < |runs| && !runs[r].state.Terminal() :: |runs| - READ_LIMIT <= r
  }

  lemma EligibleAdmitKeepsMachineLimits(s: Sched, linked: set<RunId>, limits: Limits, r: RunId)
    requires Records(s) && MachineLimits(s)
    requires r < |s.runs| && Eligible(s, linked, limits, r)
    requires s.runs[r].agent in s.profiles ==> InWindow(s, s.profiles[s.runs[r].agent].machine)
    ensures Records(Admit(s, r)) && MachineLimits(Admit(s, r))
  {
    AdmitKeepsRecords(s, r);
    if s.runs[r].agent in s.profiles {
      EligibleHasRoom(s, linked, limits, r);
      AdmitKeepsMachineLimitsIff(s, r);
    } else {
      FailedAdmitKeepsMachineLimits(s, r);
    }
  }

  /** The machine limits, with every live run in the window. */
  ghost predicate MachinesInv(s: Sched) { Records(s) && MachineLimits(s) && LiveInWindow(s.runs) }

  lemma AdmitKeepsMachinesInv(s: Sched, linked: set<RunId>, limits: Limits, r: RunId)
    requires MachinesInv(s) && r < |s.runs| && Eligible(s, linked, limits, r)
    ensures MachinesInv(Admit(s, r))
  {
    EligibleAdmitKeepsMachineLimits(s, linked, limits, r);
  }

  lemma {:induction false} PumpKeepsMachineLimits(s: Sched, linked: set<RunId>, limits: Limits)
    requires MachinesInv(s)
    ensures MachinesInv(PumpAll(s, linked, limits))
    decreases |QueuedRuns(s.runs)|
  {
    var next := Next(s, linked, limits);
    if |ActiveRuns(s.runs)| < MAX_ACTIVE && next.Some? {
      RoundAdmits(s, linked, limits);
      AdmitKeepsMachinesInv(s, linked, limits, next.value);
      PumpKeepsMachineLimits(Admit(s, next.value), linked, limits);
    }
  }

  lemma FailedAdmitKeepsMachineLimits(s: Sched, r: RunId)
    requires Records(s) && MachineLimits(s) && r < |s.runs| && s.runs[r].state.Queued? && s.runs[r].agent !in s.profiles
    ensures MachineLimits(Admit(s, r))
  {
    assert SetState(SetState(s.runs, r, Running), r, Failed) == SetState(s.runs, r, Failed);
    WriteKeepsMachineLimits(s, r, Failed);
  }

  /** One run on a machine for one run, then a hundred finished runs, then a queued one. */
  ghost function OldOccupant(): Sched {
    var p := Profile(1, 0, 1, NoDesktop, false);
    Sched([Run(0, NoParent, 0, Running)] + seq(100, i => Run(2, NoParent, 0, Completed)) + [Run(1, NoParent, 0, Queued)],
          map[0 := 0], 1, map[0 := p], map[0 := p, 1 := p], map[0 := Machine(true, false, None)], [], {}, map[])
  }

  lemma OldOccupantStates(s: Sched)
    requires s == OldOccupant()
    ensures |s.runs| == 102
    ensures forall r: RunId | r < 102 :: s.runs[r].state == if r == 0 then Running else if r == 101 then Queued else Completed
  {}

  lemma OldOccupantSets(s: Sched)
    requires s == OldOccupant()
    ensures ActiveRuns(s.runs) == {0} && TopLevelRuns(s.runs) == {0} && QueuedRuns(s.runs) == {101}
    ensures Occupants(s, 0) == {0} && SeenOccupants(s, 0) == {}
  {
    OldOccupantStates(s);
  }

  lemma OldOccupantMachine(s: Sched)
    requires s == OldOccupant()
    ensures Records(s) && MachineLimits(s)
  {
    OldOccupantStates(s);
    OldOccupantSets(s);
    assert AdmittedBy(s, 0) == {0};
  }

  lemma OldOccupantIsSound(s: Sched)
    requires s == OldOccupant()
    ensures Records(s) && MachineLimits(s) && Capacity(s.runs, {}, Limits(100, 3))
  {
    OldOccupantMachine(s);
    OldOccupantStates(s);
    OldOccupantSets(s);
    assert ActiveRuns(s.runs) * {} == {};
  }

  lemma OldOccupantEligible(s: Sched)
    requires s == OldOccupant()
    ensures |s.runs| == 102 && Eligible(s, {}, Limits(100, 3), 101) && s.runs[101].state.Queued?
  {
    OldOccupantStates(s);
    OldOccupantSets(s);
    assert !AgentBusy(s.runs, 1);
  }

  /** Outside the window the limit breaks: the occupant is overlooked and the queued run is admitted. */
  lemma OldOccupantIsOverlooked(s: Sched)
    requires s == OldOccupant()
    ensures Records(s) && MachineLimits(s) && Capacity(s.runs, {}, Limits(100, 3))
    ensures |s.runs| == 102 && Next(s, {}, Limits(100, 3)) == Some(101) && !MachineLimits(Admit(s, 101))
  {
    OldOccupantIsSound(s);
    OldOccupantEligible(s);
    OldOccupantStates(s);
    SkipsToQueued(s, {}, Limits(100, 3), 0, 101);
    OldOccupantSets(s);
    AdmitKeepsMachineLimitsIff(s, 101);
  }

  lemma {:induction false} SkipsToQueued(s: Sched, linked: set<RunId>, limits: Limits, i: nat, r: RunId)
    requires i <= r < |s.runs| && Eligible(s, linked, limits, r)
    requires forall q: RunId | i <= q < r :: !s.runs[q].state.Queued?
    ensures FirstEligible(s, linked, limits, i, 0) == Some(r)
    decreases r - i
  {
    if i < r { SkipsToQueued(s, linked, limits, i + 1, r); }
  }

  /** A hundred queued runs of an agent that is being stopped, then one of another agent. */
  ghost function LongQueue(): Sched {
    Sched(seq(100, i => Run(2, NoParent, 0, Queued)) + [Run(1, NoParent, 0, Queued)], map[], 1, map[],
          map[1 := Profile(1, 0, 1, NoDesktop, false)], map[0 := Machine(true, false, None)], [], {2}, map[])
  }

  lemma LongQueueSets(s: Sched)
    requires s == LongQueue()
    ensures |s.runs| == 101 && forall r: RunId | r < 101 :: s.runs[r] == Run(if r < 100 then 2 else 1, NoParent, 0, Queued)
    ensures ActiveRuns(s.runs) == {} && TopLevelRuns(s.runs) == {}
  {}

  lemma LongQueueCount(s: Sched)
    requires s == LongQueue()
    ensures Capacity(s.runs, {}, Limits(101, 3))
  {
    LongQueueSets(s);
    assert QueuedRuns(s.runs) == QueuedBetween(s.runs, 0, 101);
    AllQueued(s.runs, 101);
    assert ActiveRuns(s.runs) * {} == {};
  }

  lemma {:induction false} AllQueued(runs: seq<Run>, n: nat)
    requires n <= |runs| && forall r: RunId | r < n :: runs[r].state.Queued?
    ensures |QueuedBetween(runs, 0, n)| == n
  {
    if n == 0 {
      assert QueuedBetween(runs, 0, 0) == {};
    } else {
      AllQueued(runs, n - 1);
      assert QueuedBetween(runs, 0, n) == QueuedBetween(runs, 0, n - 1) + {n - 1};
    }
  }

  lemma LongQueueEligible(s: Sched)
    requires s == LongQueue()
    ensures |s.runs| == 101 && Eligible(s, {}, Limits(101, 3), 100)
  {
    LongQueueSets(s);
    assert !AgentBusy(s.runs, 1);
    assert Occupants(s, 0) == {} && SeenOccupants(s, 0) == {};
  }

  /** With a queue limit above 100 `pump` may leave four free slots and a run it could start. */
  lemma LongQueueIsOverlooked(s: Sched)
    requires s == LongQueue()
    ensures Capacity(s.runs, {}, Limits(101, 3)) && ActiveRuns(s.runs) == {}
    ensures PumpAll(s, {}, Limits(101, 3)) == s && Eligible(s, {}, Limits(101, 3), 100)
  {
    LongQueueCount(s);
    LongQueueEligible(s);
    LongQueueSets(s);
    forall q: RunId | q < |s.runs| && Eligible(s, {}, Limits(101, 3), q) ensures |QueuedBetween(s.runs, 0, q)| >= READ_LIMIT {
      AllQueued(s.runs, 100);
    }
    FindsNothingIff(s, {}, Limits(101, 3));
  }
}
