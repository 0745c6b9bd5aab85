/** Routines: the scheduler's timer, edits, manual runs, and crashes inside a tick
    (runtime/service.ts). Times and intervals are in milliseconds. */
module Routines {
  import opened Rows

  const MINUTE := 60_000
  const MAX_MINUTES := 525_600

  /** A run the timer created, with the interval in force at that moment. */
  datatype Start = Start(at: int, interval: int)

  /** A row of `schedules`; `recorded` holds the `scheduled_for` values of its `schedule_runs`. */
  datatype Routine = Routine(interval: int, enabled: bool, next: int, recorded: set<int>, starts: seq<Start>)

  /** How `createRun` ends: a run, an error that may pass, or an agent that no longer exists. */
  datatype Attempt = Started | Refused | AgentGone

  function RunDue(r: Routine, now: int, attempt: Attempt): Routine {
    if r.next in r.recorded then r
    else match attempt
         case Started =>
           r.(recorded := r.recorded + {r.next}, starts := r.starts + [Start(now, r.interval)], next := now + r.interval)
         case Refused => r.(next := now + r.interval)
         case AgentGone => r.(enabled := false)
  }

  predicate Due(r: Routine, now: int) { r.enabled && r.next <= now }

  function Tick(r: Routine, now: int, attempt: Attempt): Routine {
    if Due(r, now) then RunDue(r, now, attempt) else r
  }

  function Clamp(minutes: int): int {
    if minutes < 1 then 1 else if MAX_MINUTES < minutes then MAX_MINUTES else minutes
  }

  /** Every edit counts the interval, the one it names or the old one, again from now. */
  function Edit(r: Routine, now: int, minutes: Option<int>): Routine {
    var interval := if minutes.Some? then Clamp(minutes.value) * MINUTE else r.interval;
    r.(interval := interval, next := now + interval)
  }

  function Create(now: int, minutes: int): Routine {
    var interval := (if minutes < 1 then 1 else minutes) * MINUTE;
    Routine(interval, true, now + interval, {}, [])
  }

  /** The crash points of a tick that has created its run: before and after it is recorded. */
  function CrashBeforeRecord(r: Routine, now: int): Routine {
    if Due(r, now) && r.next !in r.recorded then r.(starts := r.starts + [Start(now, r.interval)]) else r
  }

  function CrashAfterRecord(r: Routine, now: int): Routine {
    if Due(r, now) && r.next !in r.recorded
    then r.(starts := r.starts + [Start(now, r.interval)], recorded := r.recorded + {r.next}) else r
  }

  datatype Action =
    | OnTick(attempt: Attempt) | OnEdit(minutes: Option<int>) | OnToggle | OnManualRun | OnCrashBeforeRecord | OnCrashAfterRecord

  datatype Step = At(delay: nat, action: Action)

  function Apply(r: Routine, now: int, a: Action): Routine {
    match a
    case OnTick(attempt) => Tick(r, now, attempt)
    case OnEdit(minutes) => Edit(r, now, minutes)
    case OnToggle => r.(enabled := !r.enabled)
    case OnManualRun => r.(recorded := r.recorded + {now})
    case OnCrashBeforeRecord => CrashBeforeRecord(r, now)
    case OnCrashAfterRecord => CrashAfterRecord(r, now)
  }

  function RunAll(r: Routine, now: int, steps: seq<Step>): Routine
    decreases |steps|
  {
    if steps == [] then r
    else RunAll(Apply(r, now + steps[0].delay, steps[0].action), now + steps[0].delay, steps[1..])
  }

  function EndOf(now: int, steps: seq<Step>): int
    decreases |steps|
  {
    if steps == [] then now else EndOf(now + steps[0].delay, steps[1..])
  }

  // ----- spacing -----

  /** Consecutive starts are at least the interval apart that was in force at the later one. */
  ghost predicate Spaced(starts: seq<Start>) {
    forall i | 0 < i < |starts| :: starts[i - 1].at + starts[i].interval <= starts[i].at
  }

  ghost predicate SpacingInv(r: Routine, now: int) {
    && MINUTE <= r.interval
    && (forall s | s in r.starts :: s.at <= now && MINUTE <= s.interval)
    && Spaced(r.starts)
    && (r.starts != [] ==> r.starts[|r.starts| - 1].at + r.interval <= r.next || r.next in r.recorded)
  }

  lemma CreatedIsSpaced(now: int, minutes: int)
    ensures SpacingInv(Create(now, minutes), now)
  {}

  lemma StartAppended(starts: seq<Start>, s: Start)
    requires Spaced(starts) && (starts != [] ==> starts[|starts| - 1].at + s.interval <= s.at)
    ensures Spaced(starts + [s])
  {}

  lemma TickKeepsSpacing(r: Routine, before: int, now: int, attempt: Attempt)
    requires SpacingInv(r, before) && before <= now
    ensures SpacingInv(Tick(r, now, attempt), now) && SpacingInv(CrashAfterRecord(r, now), now)
  {
    if Due(r, now) && r.next !in r.recorded { StartAppended(r.starts, Start(now, r.interval)); }
  }

  lemma LostRecordKeepsSpacingIff(r: Routine, before: int, now: int)
    requires SpacingInv(r, before) && before <= now
    ensures SpacingInv(CrashBeforeRecord(r, now), now) <==> !Due(r, now) || r.next in r.recorded
  {}

  /** Ticks (also failed ones and those that find the routine already started), edits, switches,
      manual runs and a crash after the record keep the spacing. A crash between creating the run and
      recording it keeps it exactly when nothing was due. */
  lemma ActionKeepsSpacing(r: Routine, before: int, now: int, a: Action)
    requires SpacingInv(r, before) && before <= now
    ensures !a.OnCrashBeforeRecord? ==> SpacingInv(Apply(r, now, a), now)
    ensures a.OnCrashBeforeRecord? ==>
              (SpacingInv(Apply(r, now, a), now) <==> !Due(r, now) || r.next in r.recorded)
  {
    match a
    case OnTick(attempt) => TickKeepsSpacing(r, before, now, attempt);
    case OnCrashAfterRecord => TickKeepsSpacing(r, before, now, Refused);
    case OnCrashBeforeRecord => LostRecordKeepsSpacingIff(r, before, now);
    case _ =>
  }

  ghost predicate NoLostRecord(steps: seq<Step>) {
    steps == [] || (!steps[0].action.OnCrashBeforeRecord? && NoLostRecord(steps[1..]))
  }

  lemma {:induction false} RunsKeepSpacing(r: Routine, now: int, steps: seq<Step>)
    requires SpacingInv(r, now) && NoLostRecord(steps)
    ensures SpacingInv(RunAll(r, now, steps), EndOf(now, steps))
    decreases |steps|
  {
    if steps != [] {
      var later := now + steps[0].delay;
      ActionKeepsSpacing(r, now, later, steps[0].action);
      RunsKeepSpacing(Apply(r, later, steps[0].action), later, steps[1..]);
    }
  }

  /** So from its creation on a routine's starts are spaced, whatever happens short of a lost record. */
  lemma SpacedFromCreation(now: int, minutes: int, steps: seq<Step>)
    requires NoLostRecord(steps)
    ensures SpacingInv(RunAll(Create(now, minutes), now, steps), EndOf(now, steps))
  {
    CreatedIsSpaced(now, minutes);
    RunsKeepSpacing(Create(now, minutes), now, steps);
  }

  lemma {:induction false} StartsApart(starts: seq<Start>, i: nat, j: nat, least: int)
    requires Spaced(starts) && i <= j < |starts|
    requires forall k | i < k <= j :: least <= starts[k].interval
    ensures starts[i].at + (j - i) * least <= starts[j].at
    decreases j - i
  {
    if i < j {
      StartsApart(starts, i, j - 1, least);
      assert (j - i) * least == (j - 1 - i) * least + least;
    }
  }

  lemma AtMost(n: nat, least: int, T: nat)
    requires 0 < least && n * least <= T
    ensures n <= T / least
  {
    var spare := n - T / least - 1;
    assert spare * least == n * least - (T / least) * least - least;
    assert spare * least < 0;
  }

  /** Any window of length T holds at most floor(T / interval) + 1 of the timer's runs, for every lower
      bound of the intervals in force, over any sequence of actions that loses no record. */
  lemma WindowsAreBounded(r: Routine, now: int, steps: seq<Step>, i: nat, j: nat, least: int, T: nat)
    requires SpacingInv(r, now) && NoLostRecord(steps) && 0 < least
    requires var starts := RunAll(r, now, steps).starts;
             && i <= j < |starts| && starts[j].at - starts[i].at <= T
             && forall k | i < k <= j :: least <= starts[k].interval
    ensures j - i + 1 <= T / least + 1
  {
    RunsKeepSpacing(r, now, steps);
    WindowOf(RunAll(r, now, steps).starts, i, j, least, T);
  }

  lemma WindowOf(starts: seq<Start>, i: nat, j: nat, least: int, T: nat)
    requires Spaced(starts) && i <= j < |starts| && 0 < least && starts[j].at - starts[i].at <= T
    requires forall k | i < k <= j :: least <= starts[k].interval
    ensures j - i <= T / least
  {
    StartsApart(starts, i, j, least);
    AtMost(j - i, least, T);
  }

  /** However long the routine was overdue, a tick creates at most one run, and ticks within the next
      interval create none. */
  lemma OneCatchUp(r: Routine, now: int, attempt: Attempt, later: int, again: Attempt)
    requires MINUTE <= r.interval && now <= later < now + r.interval && Due(r, now)
    ensures var r1 := Tick(r, now, attempt); var r2 := Tick(r1, later, again);
            && |r1.starts| <= |r.starts| + 1 && r2.starts == r1.starts
            && (attempt.Started? && r.next !in r.recorded ==> |r1.starts| == |r.starts| + 1)
  {}

  /** The run was created but not recorded, so the next tick creates it again at once. */
  lemma LostRecordStartsTwice(now: int, later: int)
    requires MINUTE <= now <= later
    ensures var r := Create(0, 1);
            var r1 := CrashBeforeRecord(r, now);
            var r2 := Tick(r1, later, Started);
            SpacingInv(r, 0) && r2.starts == [Start(now, MINUTE), Start(later, MINUTE)]
  {}

  // ----- being stuck -----

  /** The time the routine waits for has a record already: every tick skips it and moves nothing. */
  predicate Stuck(r: Routine) { r.next in r.recorded }

  ghost predicate NoEdit(steps: seq<Step>) {
    steps == [] || (!steps[0].action.OnEdit? && NoEdit(steps[1..]))
  }

  /** A stuck routine never starts again until it is edited. */
  lemma {:induction false} StuckUntilEdited(r: Routine, now: int, steps: seq<Step>)
    requires Stuck(r) && NoEdit(steps)
    ensures Stuck(RunAll(r, now, steps)) && RunAll(r, now, steps).starts == r.starts
    decreases |steps|
  {
    if steps != [] {
      var later := now + steps[0].delay;
      StuckUntilEdited(Apply(r, later, steps[0].action), later, steps[1..]);
    }
  }

  ghost predicate RecordsPast(r: Routine, now: int) {
    MINUTE <= r.interval && !Stuck(r) && forall t | t in r.recorded :: t <= now
  }

  /** Exactly two things get a routine stuck: a manual run at the very moment the timer waits for, and
      a crash of a due tick between the record and the new time. */
  lemma GetsStuckIff(r: Routine, before: int, now: int, a: Action)
    requires RecordsPast(r, before) && before <= now
    ensures RecordsPast(Apply(r, now, a), now)
            <==> !(a.OnManualRun? && r.next == now) && !(a.OnCrashAfterRecord? && Due(r, now))
  {}

  /** Both at a routine made for every minute: it is due from the first minute on and starts nothing, at
      no later time. */
  lemma StuckAtTheFirstMinute(r: Routine, later: int)
    requires r == Create(0, 1) && MINUTE <= later
    ensures RecordsPast(r, 0) && Tick(r, later, Started).starts == [Start(later, MINUTE)]
    ensures Tick(Apply(r, MINUTE, OnManualRun), later, Started).starts == []
    ensures var cut := Apply(r, MINUTE, OnCrashAfterRecord); Tick(cut, later, Started).starts == cut.starts
  {}

  // ----- keeping going -----

  /** What a tick does to a routine, completely. One that is switched off, not yet due or stuck stays as it is. Otherwise
      it is switched off exactly if its agent is gone, and waits one interval from now exactly if it is not; a run is
      started and recorded exactly if that succeeds. */
  lemma TickOutcome(r: Routine, now: int, attempt: Attempt)
    ensures var r' := Tick(r, now, attempt);
            && r'.interval == r.interval
            && (!r.enabled || now < r.next || r.next in r.recorded ==> r' == r)
            && (r.enabled && r.next <= now && r.next !in r.recorded ==>
                  && (r'.enabled <==> attempt != AgentGone)
                  && r'.next == (if attempt == AgentGone then r.next else now + r.interval)
                  && r'.starts == (if attempt == Started then r.starts + [Start(now, r.interval)] else r.starts)
                  && r'.recorded == (if attempt == Started then r.recorded + {r.next} else r.recorded))
  {}

  /** A routine that is going: on, not stuck, and waiting for a time to come. */
  ghost predicate Going(r: Routine, now: int) {
    r.enabled && MINUTE <= r.interval && now < r.next && forall t | t in r.recorded :: t < r.next
  }

  lemma CreatedIsGoing(now: int, minutes: int)
    ensures Going(Create(now, minutes), now)
  {}

  /** An edit keeps the interval or takes one of one minute to one year, counts it from now, and gets an enabled routine
      going again whose records all lie in the past, stuck or not. */
  lemma EditOutcome(r: Routine, now: int, minutes: Option<int>)
    ensures var r' := Edit(r, now, minutes);
            && r' == r.(interval := r'.interval, next := now + r'.interval)
            && (minutes == None ==> r'.interval == r.interval)
            && (minutes.Some? ==> 60_000 <= r'.interval <= 31_536_000_000)
            && (minutes.Some? && 1 <= minutes.value <= 525_600 ==> r'.interval == minutes.value * 60_000)
            && (r.enabled && 60_000 <= r'.interval && (forall t | t in r.recorded :: t <= now) ==> Going(r', now))
  {}

  /** Switching a routine turns it on or off and changes nothing else; a manual run only leaves its record. */
  lemma SwitchOutcome(r: Routine, now: int)
    ensures Apply(r, now, OnToggle) == r.(enabled := !r.enabled) && Apply(Apply(r, now, OnToggle), now, OnToggle) == r
    ensures var r' := Apply(r, now, OnManualRun); r' == r.(recorded := r'.recorded) && forall t :: t in r'.recorded <==> t in r.recorded || t == now
  {}

  /** A refusal only delays: after any tick that found the agent, the first tick an interval later starts the run. */
  lemma StartsAgain(r: Routine, before: int, now: int, attempt: Attempt, later: int)
    requires Going(r, before) && Due(r, now) && attempt != AgentGone && now + r.interval <= later
    ensures Tick(Tick(r, now, attempt), later, Started).starts == Tick(r, now, attempt).starts + [Start(later, r.interval)]
  {}

  ghost predicate OnlyTicks(steps: seq<Step>, gap: nat) {
    forall step | step in steps :: step.action.OnTick? && step.action.attempt != AgentGone && step.delay <= gap
  }

  /** How many of the ticks found the routine due and had the run refused. */
  ghost function Refusals(r: Routine, now: int, steps: seq<Step>): nat
    decreases |steps|
  {
    if steps == [] then 0
    else
      var later := now + steps[0].delay;
      (if Due(r, later) && steps[0].action == OnTick(Refused) then 1 else 0)
      + Refusals(Apply(r, later, steps[0].action), later, steps[1..])
  }

  /** A tick takes the waiting time at most one interval and one gap further, and only with a start or a refusal. */
  lemma TickAdvances(r: Routine, before: int, now: int, attempt: Attempt, gap: nat)
    requires Going(r, before) && before <= now <= before + gap && attempt != AgentGone
    ensures var r' := Tick(r, now, attempt);
            && Going(r', now) && r'.interval == r.interval && |r.starts| <= |r'.starts|
            && r'.next <= r.next + (|r'.starts| - |r.starts| + if Due(r, now) && attempt == Refused then 1 else 0) * (r.interval + gap)
  {
    var r' := Tick(r, now, attempt);
    var n := |r'.starts| - |r.starts| + if Due(r, now) && attempt == Refused then 1 else 0;
    assert n == if Due(r, now) then 1 else 0;
    assert n * (r.interval + gap) == if n == 1 then r.interval + gap else 0;
  }

  /** The lower bound: while the timer ticks at least once per gap and the agent exists, starts and refusals together
      come at least once per interval and gap, over any time. */
  lemma {:induction false} StartsKeepComing(r: Routine, now: int, steps: seq<Step>, gap: nat)
    requires Going(r, now) && OnlyTicks(steps, gap)
    ensures var r' := RunAll(r, now, steps);
            && Going(r', EndOf(now, steps)) && r'.interval == r.interval && |r.starts| <= |r'.starts|
            && EndOf(now, steps) < r.next + (|r'.starts| - |r.starts| + Refusals(r, now, steps)) * (r.interval + gap)
            && r'.next <= r.next + (|r'.starts| - |r.starts| + Refusals(r, now, steps)) * (r.interval + gap)
    decreases |steps|
  {
    if steps != [] {
      var later := now + steps[0].delay;
      assert steps[0] in steps;
      var r1 := Apply(r, later, steps[0].action);
      TickAdvances(r, now, later, steps[0].action.attempt, gap);
      assert forall step | step in steps[1..] :: step in steps;
      StartsKeepComing(r1, later, steps[1..], gap);
      var r' := RunAll(r1, later, steps[1..]);
      var first := |r1.starts| - |r.starts| + if Due(r, later) && steps[0].action == OnTick(Refused) then 1 else 0;
      var rest := |r'.starts| - |r1.starts| + Refusals(r1, later, steps[1..]);
      assert |r'.starts| - |r.starts| + Refusals(r, now, steps) == first + rest;
      Distributes(first, rest, r.interval + gap);
    }
  }

  lemma Distributes(a: int, b: int, c: int)
    ensures (a + b) * c == a * c + b * c
  {}

  // ----- the timer -----

  class Timer {
    var rows: map<nat, Routine>

    constructor ()
      ensures rows == map[]
    {
      rows := map[];
    }

    method RunDueRoutine(id: nat, now: int, attempt: Attempt)
      requires id in rows
      modifies this
      ensures rows == old(rows)[id := RunDue(old(rows)[id], now, attempt)]
    {
      var routine := rows[id];
      if routine.next in routine.recorded { return; }
      match attempt {
        case Started =>
          routine := routine.(recorded := routine.recorded + {routine.next},
                              starts := routine.starts + [Start(now, routine.interval)]);
          routine := routine.(next := now + routine.interval);
        case Refused => routine := routine.(next := now + routine.interval);
        case AgentGone => routine := routine.(enabled := false);
      }
      rows := rows[id := routine];
    }

    /** One tick: the due rows are read once, and one routine's failure does not stop the others. */
    method OnTimer(now: int, attempts: map<nat, Attempt>)
      requires forall id | id in rows :: id in attempts
      modifies this
      ensures rows.Keys == old(rows.Keys)
      ensures forall id | id in rows :: rows[id] == Tick(old(rows)[id], now, attempts[id])
    {
      var due := set id | id in rows && Due(rows[id], now);
      ghost var all := due;
      while due != {}
        invariant due <= all && all <= old(rows).Keys
        invariant rows.Keys == old(rows).Keys
        invariant forall id | id in rows :: rows[id] ==
                    if id in all - due then RunDue(old(rows)[id], now, attempts[id]) else old(rows)[id]
        decreases |due|
      {
        var id :| id in due;
        RunDueRoutine(id, now, attempts[id]);
        due := due - {id};
      }
    }
  }
}
