/** When an edit of cards, stages and boards is accepted and what exactly it changes, said of the rows
    (runtime/tasks.ts). A refused edit changes nothing. */
module BoardEffects {
  import opened Rows
  import opened Ranking
  import opened Desk
  import opened Boards
  import opened CardEffects

  /** A field takes the value that is asked for, if any is. */
  ghost predicate Takes<T>(asked: Option<T>, was: T, now: T) {
    match asked
    case Some(value) => now == value
    case None => now == was
  }

  ghost predicate OnBoard(d: Desk, st: StageId, b: BoardId) {
    st in d.stages && d.stages[st].board == b
  }

  // ----- cards -----

  /** An edit is accepted exactly under the current revision, with a stage of the board it ends on, and, while a run is
      to be waited for, if board, stage, team, owner, collaborators and archive flag stay. Then every field takes the
      value asked for, and the active run stays. */
  lemma EditOutcome(runs: seq<Run>, d: Desk, t: TaskId, p: Patch)
    ensures var d' := UpdateTask(runs, d, t, p);
            && (d' != d <==>
                  && t in d.tasks && p.revision == d.tasks[t].revision
                  && (var task := d.tasks[t]; var b, st := Or(p.board, task.board), Or(p.stage, task.stage);
                      && b in d.boards && OnBoard(d, st, b)
                      && (NothingRuns(runs, task) || TouchesNothingLocked(task, p))))
            && (d' != d ==> t in d'.tasks && d' == d.(tasks := d.tasks[t := d'.tasks[t]]) && EditedTask(d.tasks[t], d'.tasks[t], p))
  {
    if t in d.tasks { NothingRunsIff(runs, d.tasks[t]); }
    var d' := UpdateTask(runs, d, t, p);
    if d' != d { assert d'.tasks[t].revision == d.tasks[t].revision + 1; }
    if t in d.tasks && p.revision == d.tasks[t].revision { OnBoardIff(d, Or(p.stage, d.tasks[t].stage), Or(p.board, d.tasks[t].board)); }
  }

  ghost predicate TouchesNothingLocked(task: Task, p: Patch) {
    && (p.board == None || p.board == Some(task.board)) && (p.stage == None || p.stage == Some(task.stage))
    && (p.team == None || p.team == Some(task.team)) && (p.owner == None || p.owner == Some(task.owner))
    && (p.archived == None || p.archived == Some(task.archived))
    && (p.collaborators == None || p.collaborators == Some(task.collaborators))
  }

  ghost predicate EditedTask(task: Task, task': Task, p: Patch) {
    && Takes(p.board, task.board, task'.board) && Takes(p.stage, task.stage, task'.stage) && Takes(p.team, task.team, task'.team)
    && Takes(p.owner, task.owner, task'.owner) && Takes(p.collaborators, task.collaborators, task'.collaborators)
    && Takes(p.archived, task.archived, task'.archived) && Takes(p.position, task.position, task'.position)
    && task'.revision == task.revision + 1 && task'.activeRun == task.activeRun
  }

  lemma OnBoardIff(d: Desk, st: StageId, b: BoardId)
    ensures st in BoardStages(d, b) <==> OnBoard(d, st, b)
  {}

  /** A new card comes on the stage asked for, or on the first backlog stage, exactly if that is a stage of the board.
      It belongs to the owner asked for, or to the board's default owner, and stands one behind the last card of the
      stage, archived ones included. */
  lemma NewCardOutcome(d: Desk, t: TaskId, p: Patch)
    requires t !in d.tasks
    ensures var d' := CreateTask(d, t, p);
            && (d' != d <==>
                  && p.board.Some? && p.board.value in d.boards
                  && if p.stage.Some? then OnBoard(d, p.stage.value, p.board.value) else HasStage(d, p.board.value, Backlog))
            && (d' != d ==>
                  && t in d'.tasks && d' == d.(tasks := d.tasks[t := d'.tasks[t]])
                  && var card := d'.tasks[t];
                  && card.board == p.board.value
                  && (if p.stage.Some? then card.stage == p.stage.value else FirstStage(d, card.board, Backlog, card.stage))
                  && Takes(p.owner, d.boards[card.board].defaultOwner, card.owner) && Takes(p.team, None, card.team)
                  && Takes(p.collaborators, {}, card.collaborators)
                  && !card.archived && card.revision == 1 && card.activeRun == None && IsBehind(d, card.stage, card.position))
  {
    if p.board.Some? && p.board.value in d.boards {
      var b := p.board.value;
      FirstOfIsFirst(d, b, Backlog);
      if p.stage.Some? { OnBoardIff(d, p.stage.value, b); EndIsBehind(d, p.stage.value); }
      else if HasStage(d, b, Backlog) { EndIsBehind(d, FirstOf(d, b, Backlog).value); OnBoardIff(d, FirstOf(d, b, Backlog).value, b); }
      var d' := CreateTask(d, t, p);
      if d' != d { assert t in d'.tasks; }
    }
  }

  /** One more than the greatest position on the stage, or zero on an empty one. */
  ghost predicate IsBehind(d: Desk, st: StageId, position: real) {
    && (forall t | t in d.tasks && d.tasks[t].stage == st :: d.tasks[t].position + 1.0 <= position)
    && if exists t :: t in d.tasks && d.tasks[t].stage == st
       then exists t :: t in d.tasks && d.tasks[t].stage == st && d.tasks[t].position + 1.0 == position
       else position == 0.0
  }

  lemma LastIsGreatest(S: set<nat>, pos: map<nat, real>)
    requires S != {} && S <= pos.Keys
    ensures var o := Ordered(S, pos); o != [] && Last(o) in S && forall x | x in S :: pos[x] <= pos[Last(o)]
  {
    var o := Ordered(S, pos);
    assert |o| == |S| > 0;
    forall x | x in S ensures pos[x] <= pos[Last(o)] {
      assert x in o;
      var i :| 0 <= i < |o| && o[i] == x;
      if i < |o| - 1 { assert Before(pos, o[i], o[|o| - 1]); }
    }
  }

  lemma EndIsBehind(d: Desk, st: StageId)
    ensures IsBehind(d, st, EndOfStage(d, st))
  {
    var all := StageTasks(d, st);
    forall t | t in d.tasks && d.tasks[t].stage == st ensures t in all {}
    if all != {} {
      LastIsGreatest(all, TaskPositions(d));
      var last := Last(Ordered(all, TaskPositions(d)));
      assert last in d.tasks && d.tasks[last].stage == st;
      forall t | t in all ensures d.tasks[t].position <= d.tasks[last].position {
        assert TaskPositions(d)[t] <= TaskPositions(d)[last];
      }
    }
  }

  /** A card is moved exactly if nothing runs for it and the stage is one of its board, whatever revision the user has
      seen. It gets the owner asked for; apart from the moved card only positions change. */
  lemma MoveOutcome(runs: seq<Run>, d: Desk, t: TaskId, stage: StageId, before: Option<TaskId>, owner: Option<Option<AgentId>>)
    ensures var d' := MoveTask(runs, d, t, stage, before, owner);
            && (d' != d <==> t in d.tasks && NothingRuns(runs, d.tasks[t]) && OnBoard(d, stage, d.tasks[t].board))
            && (d' != d ==>
                  && d' == d.(tasks := d'.tasks) && d'.tasks.Keys == d.tasks.Keys
                  && (forall x | x in d.tasks && x != t :: d'.tasks[x] == d.tasks[x].(position := d'.tasks[x].position))
                  && d'.tasks[t] == d.tasks[t].(stage := stage, owner := d'.tasks[t].owner, position := d'.tasks[t].position,
                                                revision := d.tasks[t].revision + 1)
                  && Takes(owner, d.tasks[t].owner, d'.tasks[t].owner))
  {
    if t in d.tasks {
      NothingRunsIff(runs, d.tasks[t]);
      OnBoardIff(d, stage, d.tasks[t].board);
      if CanMove(runs, d, t, stage) { MovedTasks(runs, d, t, stage, before, owner); }
    }
  }

  /** The tables without the given cards and their attempts. */
  ghost predicate WithoutCards(d: Desk, d': Desk, gone: set<TaskId>) {
    && (forall t :: t in d'.tasks <==> t in d.tasks && t !in gone) && (forall t | t in d'.tasks :: d'.tasks[t] == d.tasks[t])
    && (forall r :: r in d'.links <==> r in d.links && d.links[r].task !in gone) && (forall r | r in d'.links :: d'.links[r] == d.links[r])
    && d'.teams == d.teams
  }

  /** A card is deleted, with its attempts, exactly if it has no active run. */
  lemma DeletionOutcome(d: Desk, t: TaskId)
    ensures var d' := DeleteTask(d, t);
            if t in d.tasks && d.tasks[t].activeRun == None then WithoutCards(d, d', {t}) && d'.boards == d.boards && d'.stages == d.stages
            else d' == d
  {}

  // ----- stages -----

  /** A stage is added behind all others of its board. */
  lemma NewStageOutcome(d: Desk, b: BoardId, st: StageId, category: Category)
    requires st !in d.stages
    ensures var d' := AddStage(d, b, st, category);
            if b in d.boards then
              && st in d'.stages && d' == d.(stages := d.stages[st := d'.stages[st]])
              && d'.stages[st] == Stage(b, category, d'.stages[st].position) && IsLastStage(d, b, d'.stages[st].position)
            else d' == d
  {
    if b in d.boards {
      var all := BoardStages(d, b);
      forall x | x in d.stages && d.stages[x].board == b ensures x in all {}
      if all != {} {
        LastIsGreatest(all, StagePositions(d));
        var last := Last(Ordered(all, StagePositions(d)));
        forall x | x in all ensures d.stages[x].position <= d.stages[last].position {
          assert StagePositions(d)[x] <= StagePositions(d)[last];
        }
      }
    }
  }

  ghost predicate IsLastStage(d: Desk, b: BoardId, position: real) {
    && (forall x | x in d.stages && d.stages[x].board == b :: d.stages[x].position + 1.0 <= position)
    && if exists x :: x in d.stages && d.stages[x].board == b
       then exists x :: x in d.stages && d.stages[x].board == b && d.stages[x].position + 1.0 == position
       else position == 0.0
  }

  lemma StageEditOutcome(d: Desk, st: StageId, category: Option<Category>, position: Option<real>)
    ensures var d' := UpdateStage(d, st, category, position);
            if st in d.stages then
              && st in d'.stages && d' == d.(stages := d.stages[st := d'.stages[st]]) && d'.stages[st].board == d.stages[st].board
              && Takes(category, d.stages[st].category, d'.stages[st].category) && Takes(position, d.stages[st].position, d'.stages[st].position)
            else d' == d
  {}

  /** A removal is refused exactly if the stage holds cards and no stage is named for them, or is the last one of a
      protected category on its board, or the named stage is on another board. */
  lemma RemovalRefusedIff(d: Desk, st: StageId, to: Option<StageId>)
    requires BoardInv(d)
    ensures !CanRemoveStage(d, st, to) <==>
              || st !in d.stages
              || (to == None && exists t :: t in d.tasks && d.tasks[t].stage == st)
              || (d.stages[st].category != Backlog && d.stages[st].category != Ready
                  && forall x | x in d.stages && x != st && d.stages[x].board == d.stages[st].board :: d.stages[x].category != d.stages[st].category)
              || (to.Some? && !OnBoard(d, to.value, d.stages[st].board))
  {
    if st in d.stages {
      var stage := d.stages[st];
      if x :| x in d.stages && x != st && d.stages[x].board == stage.board && d.stages[x].category == stage.category {
        assert x in StagesOf(d, stage.board, stage.category);
      }
      assert st in StagesOf(d, stage.board, stage.category);
      if t :| t in d.tasks && d.tasks[t].stage == st { assert t in StageTasks(d, st); }
    }
  }

  /** A stage that is not refused and whose cards do not go to itself disappears; its cards are on the named stage,
      one revision on, and the board is left with the settings as they resolve without the stage. */
  lemma RemovalOutcome(d: Desk, st: StageId, to: Option<StageId>)
    requires BoardInv(d) && CanRemoveStage(d, st, to) && to != Some(st)
    ensures var d', b := RemoveStage(d, st, to), d.stages[st].board;
            && d'.stages == d.stages - {st} && b in d.boards && d'.boards.Keys == d.boards.Keys
            && (forall x | x in d.boards && x != b :: d'.boards[x] == d.boards[x])
            && d'.boards[b] == d.boards[b].(runStage := d'.boards[b].runStage, doneStage := d'.boards[b].doneStage,
                                            revision := d.boards[b].revision + 1)
            && Resolved(d', b, d.boards[b].runStage, InProgress, d'.boards[b].runStage)
            && Resolved(d', b, d.boards[b].doneStage, Review, d'.boards[b].doneStage)
            && d'.tasks.Keys == d.tasks.Keys
            && (forall t | t in d.tasks :: d'.tasks[t] == if d.tasks[t].stage == st && to.Some?
                  then d.tasks[t].(stage := to.value, revision := d.tasks[t].revision + 1) else d.tasks[t])
  {
    var b, moved := d.stages[st].board, if to.Some? then Relocate(d, st, to.value) else d;
    assert b in d.boards && StageTasks(moved, st) == {};
    RemovedTables(d, st, to);
    var rest := moved.(stages := moved.stages - {st});
    SettingIsResolved(rest, b, d.boards[b].runStage, InProgress);
    SettingIsResolved(rest, b, d.boards[b].doneStage, Review);
    SameStagesResolve(rest, RemoveStage(d, st, to), b);
  }

  lemma RemovedTables(d: Desk, st: StageId, to: Option<StageId>)
    requires CanRemoveStage(d, st, to) && d.stages[st].board in d.boards
    requires StageTasks(if to.Some? then Relocate(d, st, to.value) else d, st) == {}
    ensures var b, moved := d.stages[st].board, if to.Some? then Relocate(d, st, to.value) else d;
            var rest := moved.(stages := moved.stages - {st});
            RemoveStage(d, st, to) == rest.(boards := d.boards[b := d.boards[b].(
              runStage := Setting(rest, b, d.boards[b].runStage, InProgress), doneStage := Setting(rest, b, d.boards[b].doneStage, Review),
              revision := d.boards[b].revision + 1)])
  {}

  lemma SameStagesResolve(d: Desk, d': Desk, b: BoardId)
    requires d'.stages == d.stages
    ensures forall stored, category, setting :: Resolved(d, b, stored, category, setting) <==> Resolved(d', b, stored, category, setting)
  {}

  /** A setting names the chosen stage, or none if there is none to choose. */
  ghost predicate Resolved(d: Desk, b: BoardId, stored: Option<StageId>, category: Category, setting: Option<StageId>) {
    match setting
    case Some(st) => Chosen(d, b, stored, category, st)
    case None => !CanChoose(d, b, stored, category)
  }

  lemma SettingIsResolved(d: Desk, b: BoardId, stored: Option<StageId>, category: Category)
    ensures Resolved(d, b, stored, category, Setting(d, b, stored, category))
  {
    SettingIsChosen(d, b, stored, category);
  }

  // ----- boards -----

  /** A board is changed exactly under its current revision, and archived only if none of its cards has an active run.
      A setting that is asked for is resolved on the board's own stages, one that is not is resolved as it was. */
  lemma BoardEditOutcome(d: Desk, b: BoardId, revision: nat, archived: Option<bool>, runStage: Option<Option<StageId>>,
                         doneStage: Option<Option<StageId>>, defaultOwner: Option<Option<AgentId>>)
    ensures var d' := UpdateBoard(d, b, revision, archived, runStage, doneStage, defaultOwner);
            && (d' != d <==>
                  && b in d.boards && revision == d.boards[b].revision
                  && (Or(archived, d.boards[b].archived) ==> forall t | t in d.tasks && d.tasks[t].board == b :: d.tasks[t].activeRun == None))
            && (d' != d ==>
                  && b in d'.boards && d' == d.(boards := d.boards[b := d'.boards[b]])
                  && var was, now := d.boards[b], d'.boards[b];
                  && now.revision == was.revision + 1 && Takes(archived, was.archived, now.archived)
                  && Takes(defaultOwner, was.defaultOwner, now.defaultOwner)
                  && Resolved(d, b, Or(runStage, was.runStage), InProgress, now.runStage)
                  && Resolved(d, b, Or(doneStage, was.doneStage), Review, now.doneStage))
  {
    if b in d.boards && revision == d.boards[b].revision {
      var was := d.boards[b];
      forall t | t in d.tasks && d.tasks[t].board == b ensures t in BoardTasks(d, b) {}
      AskedSetting(d, b, was.runStage, runStage, InProgress);
      AskedSetting(d, b, was.doneStage, doneStage, Review);
      var d' := UpdateBoard(d, b, revision, archived, runStage, doneStage, defaultOwner);
      if d' != d { assert d'.boards[b].revision == was.revision + 1; }
    }
  }

  lemma AskedSetting(d: Desk, b: BoardId, stored: Option<StageId>, asked: Option<Option<StageId>>, category: Category)
    ensures Resolved(d, b, Or(asked, stored), category, Setting(d, b, Or(asked, Setting(d, b, stored, category)), category))
  {
    SettingIsChosen(d, b, stored, category);
    SettingIsChosen(d, b, Or(asked, Setting(d, b, stored, category)), category);
    FirstOfIsFirst(d, b, category);
  }

  /** The tables without the board, its stages, its cards and their attempts. */
  ghost predicate WithoutBoard(d: Desk, d': Desk, b: BoardId) {
    && (forall t :: t in d'.tasks <==> t in d.tasks && d.tasks[t].board != b) && (forall t | t in d'.tasks :: d'.tasks[t] == d.tasks[t])
    && (forall r :: r in d'.links <==> r in d.links && !(d.links[r].task in d.tasks && d.tasks[d.links[r].task].board == b))
    && (forall r | r in d'.links :: d'.links[r] == d.links[r])
    && (forall st :: st in d'.stages <==> st in d.stages && d.stages[st].board != b) && (forall st | st in d'.stages :: d'.stages[st] == d.stages[st])
    && d'.boards == d.boards - {b} && d'.teams == d.teams
  }

  /** A board is deleted exactly if another board is not archived and nothing runs for its cards. */
  lemma BoardDeletionOutcome(runs: seq<Run>, d: Desk, b: BoardId)
    ensures var d' := DeleteBoard(runs, d, b);
            if b in d.boards && (exists other :: other in d.boards && other != b && !d.boards[other].archived)
               && (forall t | t in d.tasks && d.tasks[t].board == b :: NothingRuns(runs, d.tasks[t])) then WithoutBoard(d, d', b)
            else d' == d
  {
    NothingRunsOnBoard(runs, d, b);
    if b in d.boards && (exists other :: other in d.boards && other != b && !d.boards[other].archived)
       && !exists t | t in BoardTasks(d, b) :: Locked(runs, d.tasks[t]) {
      DeletedBoard(runs, d, b);
    }
  }

  lemma DeletedBoard(runs: seq<Run>, d: Desk, b: BoardId)
    requires b in d.boards && exists other | other in d.boards :: other != b && !d.boards[other].archived
    requires !exists t | t in BoardTasks(d, b) :: Locked(runs, d.tasks[t])
    ensures WithoutBoard(d, DeleteBoard(runs, d, b), b)
  {
    RemovalIsWithout(d, BoardTasks(d, b));
  }

  lemma NothingRunsOnBoard(runs: seq<Run>, d: Desk, b: BoardId)
    ensures (exists t | t in BoardTasks(d, b) :: Locked(runs, d.tasks[t]))
            <==> !(forall t | t in d.tasks && d.tasks[t].board == b :: NothingRuns(runs, d.tasks[t]))
  {
    forall t | t in d.tasks ensures Locked(runs, d.tasks[t]) <==> !NothingRuns(runs, d.tasks[t]) { NothingRunsIff(runs, d.tasks[t]); }
    if t :| t in d.tasks && d.tasks[t].board == b && !NothingRuns(runs, d.tasks[t]) { assert t in BoardTasks(d, b); }
  }

  lemma RemovalIsWithout(d: Desk, gone: set<TaskId>)
    ensures WithoutCards(d, RemoveTasks(d, gone), gone) && RemoveTasks(d, gone).stages == d.stages && RemoveTasks(d, gone).boards == d.boards
  {}

  /** The row of a copied board: not archived, with the owner asked for or the original's. */
  lemma CopiedBoardRow(d: Desk, b: BoardId, target: BoardId, base: StageId, taskBase: TaskId, withTasks: bool, owner: Option<Option<AgentId>>)
    requires CanDuplicate(d, b, target, base, taskBase)
    ensures var d' := DuplicateBoard(d, b, target, base, taskBase, withTasks, owner);
            && target in d'.boards && d'.boards == d.boards[target := d'.boards[target]] && !d'.boards[target].archived
            && d'.boards[target].revision == 1 && Takes(owner, d.boards[b].defaultOwner, d'.boards[target].defaultOwner)
            && (!withTasks ==> d'.tasks == d.tasks) && d'.links == d.links
  {}
}
