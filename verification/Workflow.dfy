/** Whether a board can always start, complete and approve work: it has a stage of each of the three
    categories that `removeStage` protects. */
module Workflow {
  import opened Rows
  import opened Runs
  import opened Desk
  import opened Links
  import opened Boards
  import opened DeskSteps
  import opened Recovery
  import opened System

  predicate Protected(c: Category) { c.InProgress? || c.Review? || c.Done? }

  ghost predicate Equipped(d: Desk, b: BoardId) {
    forall c: Category | Protected(c) :: StagesOf(d, b, c) != {}
  }

  ghost predicate AllEquipped(d: Desk) {
    forall b | b in d.boards :: Equipped(d, b)
  }

  /** Such a board places every start, completion and approval. */
  lemma EquippedBoardsPlaceWork(d: Desk, b: BoardId)
    requires AllEquipped(d) && b in d.boards
    ensures RunStage(d, b).Some? && DoneStage(d, b).Some? && FirstOf(d, b, Done).Some?
  {
    assert Protected(InProgress) && Protected(Review) && Protected(Done);
    SettingsResolve(d, b, d.boards[b].runStage, InProgress);
    SettingsResolve(d, b, d.boards[b].doneStage, Review);
  }

  /** The last stage of a protected category keeps its category. */
  predicate KeepsCategory(d: Desk, st: StageId, category: Option<Category>) {
    st in d.stages && category.Some? && Protected(d.stages[st].category) && category.value != d.stages[st].category ==>
      StagesOf(d, d.stages[st].board, d.stages[st].category) != {st}
  }

  ghost predicate SameStages(d: Desk, d': Desk) {
    && d'.boards.Keys <= d.boards.Keys
    && forall st | st in d.stages && d.stages[st].board in d'.boards :: st in d'.stages && d'.stages[st] == d.stages[st]
  }

  lemma SameStagesStayEquipped(d: Desk, d': Desk)
    requires AllEquipped(d) && SameStages(d, d')
    ensures AllEquipped(d')
  {
    forall b, c: Category | b in d'.boards && Protected(c) ensures StagesOf(d', b, c) != {} {
      var st :| st in StagesOf(d, b, c);
      assert st in StagesOf(d', b, c);
    }
  }

  lemma UpdateStageKeepsEquippedIff(d: Desk, st: StageId, category: Option<Category>, position: Option<real>)
    requires BoardInv(d) && AllEquipped(d)
    ensures AllEquipped(UpdateStage(d, st, category, position)) <==> KeepsCategory(d, st, category)
  {
    var d' := UpdateStage(d, st, category, position);
    if st in d.stages {
      var own, last := d.stages[st].board, d.stages[st].category;
      assert own in d'.boards;
      if KeepsCategory(d, st, category) {
        forall b, c: Category | b in d.boards && Protected(c) ensures StagesOf(d', b, c) != {} {
          var other :| other in StagesOf(d, b, c) && (other != st || d'.stages[st].category == c);
          assert other in StagesOf(d', b, c);
        }
      } else {
        forall x ensures x !in StagesOf(d', own, last) { assert x in StagesOf(d', own, last) ==> x in StagesOf(d, own, last); }
        assert Protected(last) && StagesOf(d', own, last) == {};
      }
    }
  }

  lemma RemovedStages(d: Desk, st: StageId, to: Option<StageId>)
    ensures var d' := RemoveStage(d, st, to);
            && d'.boards.Keys == d.boards.Keys
            && (d'.stages == d.stages || (CanRemoveStage(d, st, to) && d'.stages == d.stages - {st}))
  {}

  lemma AnotherOfTheCategory(d: Desk, st: StageId, to: Option<StageId>, b: BoardId, c: Category) returns (other: StageId)
    requires AllEquipped(d) && CanRemoveStage(d, st, to) && b in d.boards && Protected(c)
    ensures other in StagesOf(d, b, c) && other != st
  {
    assert StagesOf(d, b, c) != {};
    assert StagesOf(d, b, c) != {st} by {
      if st in StagesOf(d, b, c) { assert d.stages[st].board == b && d.stages[st].category == c; }
    }
    other :| other in StagesOf(d, b, c) && other != st;
  }

  lemma RemoveStageKeepsEquipped(d: Desk, st: StageId, to: Option<StageId>)
    requires AllEquipped(d)
    ensures AllEquipped(RemoveStage(d, st, to))
  {
    var d' := RemoveStage(d, st, to);
    RemovedStages(d, st, to);
    if d'.stages == d.stages {
      SameStagesStayEquipped(d, d');
    } else {
      forall b, c: Category | b in d.boards && Protected(c) ensures StagesOf(d', b, c) != {} {
        var other := AnotherOfTheCategory(d, st, to, b, c);
        assert other in StagesOf(d', b, c);
      }
    }
  }

  lemma NewBoardIsEquipped(d: Desk, b: BoardId, base: StageId, owner: Option<AgentId>)
    requires AllEquipped(d)
    ensures AllEquipped(CreateBoard(d, b, base, owner))
  {
    var d' := CreateBoard(d, b, base, owner);
    if d' != d {
      assert d'.stages[base + 2] == Stage(b, InProgress, 2.0) && d'.stages[base + 3] == Stage(b, Review, 3.0);
      assert d'.stages[base + 4] == Stage(b, Done, 4.0);
      forall other, c: Category | other in d'.boards && Protected(c) ensures StagesOf(d', other, c) != {} {
        if other == b {
          assert (base + if c.InProgress? then 2 else if c.Review? then 3 else 4) in StagesOf(d', b, c);
        } else {
          var st :| st in StagesOf(d, other, c);
          assert st in StagesOf(d', other, c);
        }
      }
    }
  }

  lemma CopiesAreEquipped(d: Desk, d': Desk, order: seq<StageId>, b: BoardId, target: BoardId, base: StageId)
    requires AllEquipped(d) && b in d.boards && d'.boards.Keys == d.boards.Keys + {target}
    requires StagesCopied(d, d', order, target, base) && forall st | st in BoardStages(d, b) :: st in order
    ensures AllEquipped(d')
  {
    forall other, c: Category | other in d'.boards && Protected(c) ensures StagesOf(d', other, c) != {} {
      if other == target {
        var st :| st in StagesOf(d, b, c);
        assert st in BoardStages(d, b);
        var i :| 0 <= i < |order| && order[i] == st;
        assert base + i in StagesOf(d', target, c);
      } else {
        var st :| st in StagesOf(d, other, c);
        assert st in StagesOf(d', other, c);
      }
    }
  }

  lemma DuplicateKeepsEquipped(d: Desk, b: BoardId, target: BoardId, base: StageId, taskBase: TaskId, withTasks: bool,
                               owner: Option<Option<AgentId>>)
    requires BoardInv(d) && AllEquipped(d)
    ensures AllEquipped(DuplicateBoard(d, b, target, base, taskBase, withTasks, owner))
  {
    if CanDuplicate(d, b, target, base, taskBase) {
      var d' := DuplicateBoard(d, b, target, base, taskBase, withTasks, owner);
      DuplicateTables(d, b, target, base, taskBase, withTasks, owner);
      NewBoardIsUnused(d, target);
      StagesAreCopied(d, d', StageOrder(d, b), StageCopies(d, b, target), target, base);
      CopiesAreEquipped(d, d', StageOrder(d, b), b, target, base);
    }
  }

  lemma AddStageKeepsEquipped(d: Desk, b: BoardId, st: StageId, category: Category)
    requires AllEquipped(d)
    ensures AllEquipped(AddStage(d, b, st, category))
  {
    SameStagesStayEquipped(d, AddStage(d, b, st, category));
  }

  lemma TeamStepsKeepStages(runs: seq<Run>, d: Desk, e: DeskStep)
    requires EditsTeams(e)
    ensures SameStages(d, ApplyDesk(runs, d, e))
  {
    TeamStepsKeepBoards(runs, d, e);
  }

  lemma PlainStepsKeepStages(runs: seq<Run>, d: Desk, e: DeskStep)
    requires !e.BoardCreate? && !e.BoardDuplicate? && !e.StageAdd? && !e.StageUpdate? && !e.StageRemove? && !EditsTeams(e)
    ensures SameStages(d, ApplyDesk(runs, d, e))
  {
    if e.TaskMove? && CanMove(runs, d, e.task, e.stage) { MovedTasks(runs, d, e.task, e.stage, e.before, e.owner); }
  }

  /** Of all board operations only one can leave a board unequipped: giving the last stage of a
      protected category another category. */
  lemma StepsKeepEquippedIff(runs: seq<Run>, d: Desk, e: DeskStep)
    requires BoardInv(d) && AllEquipped(d)
    ensures AllEquipped(ApplyDesk(runs, d, e)) <==> (e.StageUpdate? ==> KeepsCategory(d, e.stage, e.newCategory))
  {
    match e
    case BoardCreate(b, base, owner) => NewBoardIsEquipped(d, b, base, owner);
    case BoardDuplicate(b, target, base, taskBase, withTasks, owner) =>
      DuplicateKeepsEquipped(d, b, target, base, taskBase, withTasks, owner);
    case StageAdd(b, st, category) => AddStageKeepsEquipped(d, b, st, category);
    case StageUpdate(st, category, position) => UpdateStageKeepsEquippedIff(d, st, category, position);
    case StageRemove(st, to) => RemoveStageKeepsEquipped(d, st, to);
    case _ =>
      if EditsTeams(e) { TeamStepsKeepStages(runs, d, e); } else { PlainStepsKeepStages(runs, d, e); }
      SameStagesStayEquipped(d, ApplyDesk(runs, d, e));
  }

  // ----- the hypothesis on completions, discharged -----

  /** The steps a careful caller makes: states are written to runs that have not ended, queued runs are
      only ended, and no last protected stage is recategorised. The rest is as in `Fits`. */
  ghost predicate Careful(sys: Sys, step: Step) {
    match step
    case RunWrite(r, state) =>
      r < |sys.s.runs| && !state.Queued? ==>
        !sys.s.runs[r].state.Terminal() && (state.Terminal() || sys.s.runs[r].state.Active())
    case OfDesk(e) => DeskStepFits(sys.d, e) && (e.StageUpdate? ==> KeepsCategory(sys.d, e.stage, e.newCategory))
    case _ => Fits(sys, step)
  }

  lemma CarefulStepsFit(sys: Sys, step: Step)
    requires LinkInv(sys.s.runs, sys.d) && BoardInv(sys.d) && AllEquipped(sys.d) && Careful(sys, step)
    ensures Fits(sys, step)
  {
    if step.RunWrite? && step.run < |sys.s.runs| && !step.state.Queued? {
      if step.run in sys.d.links {
        var t := sys.d.links[step.run].task;
        assert t in sys.d.tasks;
        EquippedBoardsPlaceWork(sys.d, sys.d.tasks[t].board);
      }
      LiveWritesAreTimely(sys, step.run, step.state);
    }
  }

  lemma WritesKeepStages(runs: seq<Run>, d: Desk, r: RunId, state: RunState)
    requires r < |runs|
    ensures AfterWrite(runs, d, r, state).boards == d.boards && AfterWrite(runs, d, r, state).stages == d.stages
  {}

  lemma OtherStepsKeepStages(sys: Sys, limits: Limits, step: Step)
    requires !step.OfDesk?
    ensures var d' := Next(sys, limits, step).d; d'.boards == sys.d.boards && d'.stages == sys.d.stages
  {
    match step
    case Admission(r) =>
      if MayAdmit(sys, limits, r) {
        WritesKeepStages(sys.s.runs, sys.d, r, Running);
        WritesKeepStages(SetState(sys.s.runs, r, Running), AfterWrite(sys.s.runs, sys.d, r, Running), r, Failed);
      }
    case RunWrite(r, state) => if r < |sys.s.runs| { WritesKeepStages(sys.s.runs, sys.d, r, state); }
    case _ =>
  }

  lemma StepKeepsEquipped(sys: Sys, limits: Limits, step: Step)
    requires BoardInv(sys.d) && AllEquipped(sys.d) && Careful(sys, step)
    ensures AllEquipped(Next(sys, limits, step).d)
  {
    if step.OfDesk? {
      StepsKeepEquippedIff(sys.s.runs, sys.d, step.edit);
    } else {
      OtherStepsKeepStages(sys, limits, step);
      SameStagesStayEquipped(sys.d, Next(sys, limits, step).d);
    }
  }

  ghost predicate AllCareful(sys: Sys, limits: Limits, steps: seq<Step>)
    decreases |steps|
  {
    steps == [] || (Careful(sys, steps[0]) && AllCareful(Next(sys, limits, steps[0]), limits, steps[1..]))
  }

  /** Every state reached by careful steps satisfies all invariants and can place all work; that
      completions find their stage need not be assumed. */
  lemma {:induction false} CarefulRunsAreSound(sys: Sys, limits: Limits, steps: seq<Step>)
    requires Inv(sys, limits) && AllEquipped(sys.d) && AllCareful(sys, limits, steps)
    ensures Inv(RunAll(sys, limits, steps), limits) && AllEquipped(RunAll(sys, limits, steps).d)
    decreases |steps|
  {
    if steps != [] {
      CarefulStepsFit(sys, steps[0]);
      StepKeepsInv(sys, limits, steps[0]);
      StepKeepsEquipped(sys, limits, steps[0]);
      CarefulRunsAreSound(Next(sys, limits, steps[0]), limits, steps[1..]);
    }
  }
}
