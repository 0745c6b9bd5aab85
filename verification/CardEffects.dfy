/** What happens to a card when it is started, when its run ends, and when it is approved, said of the rows of
    the board (runtime/tasks.ts). */
module CardEffects {
  import opened Rows
  import opened Runs
  import opened Ranking
  import opened Desk
  import opened Recovery
  import opened System
  import opened Admission

  // ----- which stage -----

  /** The first stage of the category on the board: no other has a smaller position, or the same one and a
      smaller number. */
  ghost predicate FirstStage(d: Desk, b: BoardId, category: Category, st: StageId) {
    && st in d.stages && d.stages[st].board == b && d.stages[st].category == category
    && forall x | x in d.stages && d.stages[x].board == b && d.stages[x].category == category && x != st ::
         d.stages[st].position < d.stages[x].position || (d.stages[st].position == d.stages[x].position && st < x)
  }

  ghost predicate HasStage(d: Desk, b: BoardId, category: Category) {
    exists st :: st in d.stages && d.stages[st].board == b && d.stages[st].category == category
  }

  /** The stored stage if it is one of the board, else the first stage of the category. */
  ghost predicate Chosen(d: Desk, b: BoardId, stored: Option<StageId>, category: Category, st: StageId) {
    if stored.Some? && stored.value in d.stages && d.stages[stored.value].board == b then st == stored.value
    else FirstStage(d, b, category, st)
  }

  ghost predicate CanChoose(d: Desk, b: BoardId, stored: Option<StageId>, category: Category) {
    (stored.Some? && stored.value in d.stages && d.stages[stored.value].board == b) || HasStage(d, b, category)
  }

  lemma FirstOfIsFirst(d: Desk, b: BoardId, category: Category)
    ensures FirstOf(d, b, category).Some? <==> HasStage(d, b, category)
    ensures forall st: StageId :: FirstOf(d, b, category) == Some(st) <==> FirstStage(d, b, category, st)
  {
    var found := StagesOf(d, b, category);
    if HasStage(d, b, category) {
      var x :| x in d.stages && d.stages[x].board == b && d.stages[x].category == category;
      assert x in found;
    }
    if found != {} {
      var m := Least(found, StagePositions(d));
      forall x | x in d.stages && d.stages[x].board == b && d.stages[x].category == category && x != m
        ensures d.stages[m].position < d.stages[x].position || (d.stages[m].position == d.stages[x].position && m < x)
      {
        assert x in found && Before(StagePositions(d), m, x);
      }
      assert m in found && FirstStage(d, b, category, m);
    }
  }

  lemma SettingIsChosen(d: Desk, b: BoardId, stored: Option<StageId>, category: Category)
    ensures Setting(d, b, stored, category).Some? <==> CanChoose(d, b, stored, category)
    ensures forall st: StageId :: Setting(d, b, stored, category) == Some(st) <==> Chosen(d, b, stored, category, st)
  {
    FirstOfIsFirst(d, b, category);
  }

  // ----- when a run ends -----

  /** Nothing of the card changes but stage, active run and revision. */
  ghost predicate OnlyPlaced(task: Task, task': Task) {
    task' == task.(stage := task'.stage, activeRun := task'.activeRun, revision := task'.revision)
  }

  /** A card whose run has completed is on the completion stage of its board, or the first review stage. */
  ghost predicate SentToReview(d: Desk, task: Task, task': Task) {
    && OnlyPlaced(task, task') && task'.activeRun == None && task'.revision == task.revision + 1
    && task.board in d.boards && Chosen(d, task.board, d.boards[task.board].doneStage, Review, task'.stage)
  }

  ghost predicate CanReview(d: Desk, b: BoardId) {
    b in d.boards && CanChoose(d, b, d.boards[b].doneStage, Review)
  }

  /** What the end of a run makes of its card: completed work goes to review, where the board has a stage for it, and
      any other end leaves the card where it is. */
  ghost predicate Ended(d: Desk, state: RunState, task: Task, task': Task) {
    if state == Completed then if CanReview(d, task.board) then SentToReview(d, task, task') else task' == task
    else if state == Failed || state == Interrupted || state == Cancelled then
      task' == task.(activeRun := None, revision := task.revision + 1)
    else task' == task
  }

  /** The listener, on the rows: the card of the run ends as described, all other cards and rows stay. */
  lemma EndOfRun(runs: seq<Run>, d: Desk, r: RunId)
    requires r < |runs|
    ensures var d' := SyncRun(runs, d, r);
            if r in d.links && d.links[r].task in d.tasks then
              var t := d.links[r].task;
              t in d'.tasks && d' == d.(tasks := d.tasks[t := d'.tasks[t]]) && Ended(d, runs[r].state, d.tasks[t], d'.tasks[t])
            else d' == d
  {
    if r in d.links && d.links[r].task in d.tasks {
      var task := d.tasks[d.links[r].task];
      if task.board in d.boards { SettingIsChosen(d, task.board, d.boards[task.board].doneStage, Review); }
      assert d.tasks == d.tasks[d.links[r].task := task];
    }
  }

  /** So it is for every state write of the system, and the row of the run has exactly that state. */
  lemma WriteEndsCard(sys: Sys, limits: Limits, r: RunId, state: RunState)
    requires r < |sys.s.runs| && !state.Queued? && r in sys.d.links && sys.d.links[r].task in sys.d.tasks
    ensures var sys', t := Next(sys, limits, RunWrite(r, state)), sys.d.links[r].task;
            && sys'.s.runs == sys.s.runs[r := sys.s.runs[r].(state := state)]
            && t in sys'.d.tasks && sys'.d == sys.d.(tasks := sys.d.tasks[t := sys'.d.tasks[t]])
            && Ended(sys.d, state, sys.d.tasks[t], sys'.d.tasks[t])
  {
    EndOfRun(SetState(sys.s.runs, r, state), sys.d, r);
  }

  lemma ReplayedCard(runs: seq<Run>, d: Desk, t: TaskId)
    requires LinkedRows(runs, d) && t in d.tasks
    ensures var task, d' := d.tasks[t], Reconciled(runs, d);
            t in d'.tasks && if HasEndedRun(runs, task) then Ended(d, runs[task.activeRun.value].state, task, d'.tasks[t]) else d'.tasks[t] == task
  {
    if HasEndedRun(runs, d.tasks[t]) { EndOfRun(runs, d, d.tasks[t].activeRun.value); }
  }

  lemma SameCountSameLinks(runs: seq<Run>, runs': seq<Run>, d: Desk)
    requires LinkedRows(runs, d) && |runs'| == |runs|
    ensures LinkedRows(runs', d)
  {}

  lemma RunOfCardEnds(runs: seq<Run>, linked: set<RunId>, r: RunId)
    requires r < |runs| && r in linked
    ensures RecoverRuns(runs, linked)[r].state == if runs[r].state.Terminal() then runs[r].state else Interrupted
  {}

  /** What a start makes of a card: one with an active run is settled as if that run ended now, interrupted unless it
      had ended before; any other stays. */
  ghost predicate SettledAtStart(runs: seq<Run>, d: Desk, task: Task, task': Task) {
    match task.activeRun
    case None => task' == task
    case Some(r) => r < |runs| && Ended(d, if runs[r].state.Terminal() then runs[r].state else Interrupted, task, task')
  }

  lemma RecoveredCard(runs: seq<Run>, d: Desk, t: TaskId)
    requires LinkedRows(runs, d) && t in d.tasks
    ensures var d' := Reconciled(RecoverRuns(runs, d.links.Keys), d); t in d'.tasks && SettledAtStart(runs, d, d.tasks[t], d'.tasks[t])
  {
    var runs' := RecoverRuns(runs, d.links.Keys);
    SameCountSameLinks(runs, runs', d);
    ReplayedCard(runs', d, t);
    if d.tasks[t].activeRun.Some? { RunOfCardEnds(runs, d.links.Keys, d.tasks[t].activeRun.value); }
  }

  lemma StartSettlesCards(sys: Sys, t: TaskId)
    requires LinkedRows(sys.s.runs, sys.d) && t in sys.d.tasks
    ensures t in Boot(sys).d.tasks && SettledAtStart(sys.s.runs, sys.d, sys.d.tasks[t], Boot(sys).d.tasks[t])
  {
    RecoveredCard(sys.s.runs, sys.d, t);
  }

  // ----- starting a card -----

  /** Nothing runs for the card, and it is not finished with a run that is still to be recorded. */
  ghost predicate NothingRuns(runs: seq<Run>, task: Task) {
    forall r | task.activeRun == Some(r) && r < |runs| :: runs[r].state == Completed || runs[r].state == Failed || runs[r].state == Interrupted || runs[r].state == Cancelled
  }

  ghost predicate KeyUsed(d: Desk, t: TaskId, key: nat) {
    exists r :: r in d.links && d.links[r].task == t && d.links[r].key == key
  }

  /** A start is accepted exactly for a card with an owner that has a profile, under a new key and the
      current revision if one is given, when nothing runs for the card, its board has a stage for running work, and
      the queue has room. Otherwise nothing changes. */
  lemma StartAcceptedIff(sys: Sys, limits: Limits, t: TaskId, key: nat, revision: Option<nat>)
    ensures StartTask(sys, limits, t, key, revision) != sys <==>
              && t in sys.d.tasks && !KeyUsed(sys.d, t, key)
              && (var task := sys.d.tasks[t];
                  && NothingRuns(sys.s.runs, task) && task.owner.Some? && (revision == None || revision == Some(task.revision))
                  && task.board in sys.d.boards && CanChoose(sys.d, task.board, sys.d.boards[task.board].runStage, InProgress)
                  && task.owner.value in sys.s.profiles)
              && |set q: RunId | q < |sys.s.runs| && sys.s.runs[q].state.Queued?| < limits.queue
  {
    if t in sys.d.tasks {
      KeyUsedIff(sys.d, t, key);
      NothingRunsIff(sys.s.runs, sys.d.tasks[t]);
      var task := sys.d.tasks[t];
      if task.board in sys.d.boards { SettingIsChosen(sys.d, task.board, sys.d.boards[task.board].runStage, InProgress); }
      if task.owner.Some? { CreatedIff(sys.s, limits, task.owner.value, NoParent, 0); }
      var sys' := StartTask(sys, limits, t, key, revision);
      if sys' != sys { assert |sys'.s.runs| == |sys.s.runs| + 1; }
    }
  }

  lemma KeyUsedIff(d: Desk, t: TaskId, key: nat)
    ensures KeyHolders(d, t, key) != {} <==> KeyUsed(d, t, key)
  {
    if KeyUsed(d, t, key) {
      var r :| r in d.links && d.links[r].task == t && d.links[r].key == key;
      assert r in KeyHolders(d, t, key);
    }
  }

  lemma NothingRunsIff(runs: seq<Run>, task: Task)
    ensures Locked(runs, task) <==> !NothingRuns(runs, task)
  {}

  /** The attempt number: one more than every earlier attempt of the card, and the first is 1. */
  ghost predicate NextAttempt(d: Desk, t: TaskId, attempt: nat) {
    && (forall r | r in d.links && d.links[r].task == t :: d.links[r].attempt < attempt)
    && (attempt == 1 || exists r :: r in d.links && d.links[r].task == t && d.links[r].attempt + 1 == attempt)
  }

  /** An accepted start queues one top-level run of the owner, links it as the next attempt under the key, and puts the
      card on its board's run stage, or the first stage in progress, with the run as its active one. */
  lemma StartedCard(sys: Sys, limits: Limits, t: TaskId, key: nat, revision: Option<nat>)
    requires StartTask(sys, limits, t, key, revision) != sys
    ensures var sys', run := StartTask(sys, limits, t, key, revision), |sys.s.runs|;
            && t in sys.d.tasks && t in sys'.d.tasks && run in sys'.d.links && sys.d.tasks[t].owner.Some?
            && (var task, task' := sys.d.tasks[t], sys'.d.tasks[t];
                && sys'.s == sys.s.(runs := sys.s.runs + [Run(task.owner.value, NoParent, 0, Queued)])
                && sys'.d == sys.d.(tasks := sys.d.tasks[t := task'], links := sys.d.links[run := sys'.d.links[run]])
                && sys'.d.links[run].task == t && sys'.d.links[run].key == key && NextAttempt(sys.d, t, sys'.d.links[run].attempt)
                && OnlyPlaced(task, task') && task'.activeRun == Some(run) && task'.revision == task.revision + 1
                && task.board in sys.d.boards && Chosen(sys.d, task.board, sys.d.boards[task.board].runStage, InProgress, task'.stage))
  {
    var task := sys.d.tasks[t];
    SettingIsChosen(sys.d, task.board, sys.d.boards[task.board].runStage, InProgress);
    CreatedIff(sys.s, limits, task.owner.value, NoParent, 0);
    NextAttemptIs(sys.d, t);
  }

  lemma NextAttemptIs(d: Desk, t: TaskId)
    ensures NextAttempt(d, t, MaxOf(Attempts(d.links, t)) + 1)
  {
    var all := Attempts(d.links, t);
    forall r | r in d.links && d.links[r].task == t ensures d.links[r].attempt in all {}
    if all != {} {
      var r :| r in d.links && d.links[r].task == t && d.links[r].attempt == MaxOf(all);
      assert d.links[r].attempt + 1 == MaxOf(all) + 1;
    }
  }

  // ----- approval -----

  /** Approving moves the card to the first done stage of its board, exactly if there is one, nothing is recorded as
      running, and the revision is current; otherwise nothing changes. */
  lemma ApprovalOutcome(d: Desk, t: TaskId, revision: Option<nat>)
    ensures var d' := Approve(d, t, revision);
            if t in d.tasks && (revision == None || revision == Some(d.tasks[t].revision)) && d.tasks[t].activeRun == None
               && HasStage(d, d.tasks[t].board, Done) then
              && t in d'.tasks && d' == d.(tasks := d.tasks[t := d'.tasks[t]])
              && d'.tasks[t] == d.tasks[t].(stage := d'.tasks[t].stage, revision := d.tasks[t].revision + 1)
              && FirstStage(d, d.tasks[t].board, Done, d'.tasks[t].stage)
            else d' == d
  {
    if t in d.tasks { FirstOfIsFirst(d, d.tasks[t].board, Done); }
  }

  // ----- a new board -----

  /** On a board as it is created, started work goes to the third stage, completed work to the fourth and approved work
      to the fifth. */
  lemma NewBoardPlacesWork(d: Desk, b: BoardId, base: StageId, owner: Option<AgentId>, st: StageId)
    requires b !in d.boards && (forall x | x in d.stages :: x < base && d.stages[x].board in d.boards)
    ensures var d' := CreateBoard(d, b, base, owner);
            && b in d'.boards && d'.boards[b].defaultOwner == owner && !d'.boards[b].archived
            && (Chosen(d', b, d'.boards[b].runStage, InProgress, st) <==> st == base + 2)
            && (Chosen(d', b, d'.boards[b].doneStage, Review, st) <==> st == base + 3)
            && (FirstStage(d', b, Done, st) <==> st == base + 4) && (FirstStage(d', b, Backlog, st) <==> st == base)
  {
    var d' := CreateBoard(d, b, base, owner);
    assert forall x | x in d'.stages && d'.stages[x].board == b :: base <= x <= base + 4;
  }
}
