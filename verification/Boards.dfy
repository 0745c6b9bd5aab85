/** Boards and their stages: no task ever leaves its board's stages, settings always resolve, and a
    duplicated board is an image of the original. */
module Boards {
  import opened Rows
  import opened Ranking
  import opened Cards
  import opened Desk

  /** Every task sits on a stage of its own board, every stage belongs to an existing board. */
  ghost predicate BoardInv(d: Desk) {
    && (forall t | t in d.tasks :: d.tasks[t].board in d.boards && d.tasks[t].stage in BoardStages(d, d.tasks[t].board))
    && (forall st | st in d.stages :: d.stages[st].board in d.boards)
  }

  /** Whatever is stored, the run and completion stage of a board are stages of that board; they are
      missing only if the board has no stage of the fallback category. */
  lemma SettingsResolve(d: Desk, b: BoardId, stored: Option<StageId>, fallback: Category)
    ensures var s := Setting(d, b, stored, fallback);
            && (s.Some? ==> s.value in BoardStages(d, b))
            && (s.None? ==> StagesOf(d, b, fallback) == {})
            && (stored.Some? && stored.value in BoardStages(d, b) ==> s == stored)
            && (StagesOf(d, b, fallback) != {} && !(stored.Some? && stored.value in BoardStages(d, b)) ==>
                  s.Some? && IsLeast(StagesOf(d, b, fallback), StagePositions(d), s.value))
  {}

  // ----- single cards -----

  lemma TaskEditsKeepBoardInv(runs: seq<Run>, d: Desk, t: TaskId, p: Patch, revision: Option<nat>)
    requires BoardInv(d)
    ensures BoardInv(UpdateTask(runs, d, t, p)) && BoardInv(CreateTask(d, t, p)) && BoardInv(Approve(d, t, revision))
  {}

  lemma MoveKeepsBoardInv(runs: seq<Run>, d: Desk, t: TaskId, stage: StageId, before: Option<TaskId>, owner: Option<Option<AgentId>>)
    requires BoardInv(d)
    ensures BoardInv(MoveTask(runs, d, t, stage, before, owner))
  {
    if CanMove(runs, d, t, stage) {
      MovedTasks(runs, d, t, stage, before, owner);
      var d' := MoveTask(runs, d, t, stage, before, owner);
      forall x | x in d'.tasks ensures d'.tasks[x].board in d'.boards && d'.tasks[x].stage in BoardStages(d', d'.tasks[x].board) {
        assert d.tasks[x].stage in BoardStages(d, d.tasks[x].board);
        assert x != t ==> d'.tasks[x].stage == d.tasks[x].stage && d'.tasks[x].board == d.tasks[x].board;
      }
    }
  }

  lemma RunsKeepBoardInv(runs: seq<Run>, d: Desk, r: RunId, t: TaskId, key: nat, revision: Option<nat>, run: RunId)
    requires BoardInv(d)
    ensures r < |runs| ==> BoardInv(SyncRun(runs, d, r))
    ensures var check := CheckStart(runs, d, t, key, revision); check.Go? ==> BoardInv(LinkRun(d, t, key, run, check.stage))
  {
    forall b, stored, fallback: Category | b in d.boards && Setting(d, b, stored, fallback).Some?
      ensures Setting(d, b, stored, fallback).value in BoardStages(d, b)
    {
      SettingsResolve(d, b, stored, fallback);
    }
  }

  lemma RemovalKeepsBoardInv(d: Desk, gone: set<TaskId>)
    requires BoardInv(d)
    ensures BoardInv(RemoveTasks(d, gone))
  {}

  // ----- stages -----

  lemma StageEditsKeepBoardInv(d: Desk, b: BoardId, st: StageId, category: Category, c: Option<Category>, position: Option<real>)
    requires BoardInv(d)
    ensures BoardInv(AddStage(d, b, st, category)) && BoardInv(UpdateStage(d, st, c, position))
  {
    StagesOnlyChange(d, AddStage(d, b, st, category));
    StagesOnlyChange(d, UpdateStage(d, st, c, position));
  }

  lemma StagesOnlyChange(d: Desk, d': Desk)
    requires BoardInv(d) && d'.tasks == d.tasks && d'.boards == d.boards
    requires forall st | st in d.stages :: st in d'.stages && d'.stages[st].board == d.stages[st].board
    requires forall st | st in d'.stages :: d'.stages[st].board in d.boards
    ensures BoardInv(d')
  {
    forall t | t in d.tasks ensures d.tasks[t].stage in BoardStages(d', d.tasks[t].board) {
      assert d.tasks[t].stage in BoardStages(d, d.tasks[t].board);
    }
  }

  /** Removing a stage loses no task: the cards of the stage end up on the chosen stage of the same
      board, every other card stays where it is, and a stage that holds cards is never deleted. */
  lemma RemoveStageLosesNothing(d: Desk, st: StageId, to: Option<StageId>)
    requires BoardInv(d)
    ensures var d' := RemoveStage(d, st, to);
            && BoardInv(d')
            && d'.tasks.Keys == d.tasks.Keys && d'.links == d.links && d'.teams == d.teams
            && (forall t | t in d.tasks :: d'.tasks[t].board == d.tasks[t].board && d'.tasks[t].activeRun == d.tasks[t].activeRun)
            && (forall t | t in d.tasks && d.tasks[t].stage != st :: d'.tasks[t] == d.tasks[t])
            && (forall t | t in d.tasks && d.tasks[t].stage == st && d' != d :: to == Some(d'.tasks[t].stage))
            && (st in d.stages && st !in d'.stages ==> StageTasks(d', st) == {} && d'.stages == d.stages - {st})
  {
    if CanRemoveStage(d, st, to) {
      var moved := if to.Some? then Relocate(d, st, to.value) else d;
      RelocationKeepsBoardInv(d, st, to);
      var d' := RemoveStage(d, st, to);
      assert d'.tasks == moved.tasks;
      if StageTasks(moved, st) == {} {
        forall t | t in d'.tasks ensures d'.tasks[t].stage in BoardStages(d', d'.tasks[t].board) {
          assert moved.tasks[t].stage in BoardStages(moved, moved.tasks[t].board);
          assert t !in StageTasks(moved, st);
        }
      }
    }
  }

  /** A request that passes every check removes the stage exactly if its cards do not go to the stage
      itself; otherwise it fails after the cards were touched. */
  lemma CheckedRemovalFailsIff(d: Desk, st: StageId, to: Option<StageId>)
    requires BoardInv(d) && CanRemoveStage(d, st, to)
    ensures st !in RemoveStage(d, st, to).stages <==> to != Some(st) || StageTasks(d, st) == {}
    ensures st in RemoveStage(d, st, to).stages ==>
              && RemoveStage(d, st, to) == Relocate(d, st, st) && RemoveStage(d, st, to).tasks != d.tasks
  {
    var moved := if to.Some? then Relocate(d, st, to.value) else d;
    assert d.stages[st].board in d.boards;
    if to == Some(st) {
      assert StageTasks(moved, st) == StageTasks(d, st);
      if StageTasks(d, st) != {} {
        var t :| t in StageTasks(d, st);
        assert moved.tasks[t].revision == d.tasks[t].revision + 1;
      }
    } else {
      assert StageTasks(moved, st) == {};
    }
  }

  /** A board with two stages for work in progress and one card on the first. */
  ghost function TwoInProgress(): Desk {
    Desk(map[0 := Board(false, 1, None, None, None)], map[0 := Stage(0, InProgress, 0.0), 1 := Stage(0, InProgress, 1.0)],
         map[0 := Task(0, 0, None, None, {}, 0.0, false, 1, None)], map[], map[])
  }

  /** Moving the card of a removed stage to that stage passes the checks, raises the card's revision and
      then fails. */
  lemma RemovalIntoItselfFails(d: Desk)
    requires d == TwoInProgress()
    ensures BoardInv(d) && CanRemoveStage(d, 0, Some(0))
    ensures var d' := RemoveStage(d, 0, Some(0)); 0 in d'.stages && 0 in d'.tasks && d'.tasks[0].revision == 2
  {
    assert BoardStages(d, 0) == {0, 1} && StagesOf(d, 0, InProgress) == {0, 1} && StageTasks(d, 0) == {0};
    CheckedRemovalFailsIff(d, 0, Some(0));
  }

  lemma RelocationKeepsBoardInv(d: Desk, st: StageId, to: Option<StageId>)
    requires BoardInv(d) && CanRemoveStage(d, st, to)
    ensures BoardInv(if to.Some? then Relocate(d, st, to.value) else d)
  {
    if to.Some? {
      var moved := Relocate(d, st, to.value);
      forall t | t in moved.tasks ensures moved.tasks[t].stage in BoardStages(moved, moved.tasks[t].board) {
        assert d.tasks[t].stage in BoardStages(d, d.tasks[t].board);
      }
    }
  }

  // ----- boards -----

  lemma CreateBoardKeepsBoardInv(d: Desk, b: BoardId, base: StageId, owner: Option<AgentId>)
    requires BoardInv(d)
    ensures BoardInv(CreateBoard(d, b, base, owner))
  {
    var d' := CreateBoard(d, b, base, owner);
    if d' != d {
      forall t | t in d'.tasks ensures d'.tasks[t].stage in BoardStages(d', d'.tasks[t].board) {
        assert d.tasks[t].stage in BoardStages(d, d.tasks[t].board);
        assert d.tasks[t].stage < base;
      }
    }
  }

  lemma BoardEditsKeepBoardInv(runs: seq<Run>, d: Desk, b: BoardId, revision: nat, archived: Option<bool>,
                               runStage: Option<Option<StageId>>, doneStage: Option<Option<StageId>>, owner: Option<Option<AgentId>>)
    requires BoardInv(d)
    ensures BoardInv(UpdateBoard(d, b, revision, archived, runStage, doneStage, owner))
    ensures BoardInv(DeleteBoard(runs, d, b))
  {
    var deleted := DeleteBoard(runs, d, b);
    if deleted != d {
      forall t | t in deleted.tasks
        ensures deleted.tasks[t].board in deleted.boards && deleted.tasks[t].stage in BoardStages(deleted, deleted.tasks[t].board)
      {
        assert d.tasks[t].stage in BoardStages(d, d.tasks[t].board);
        assert t !in BoardTasks(d, b);
      }
    }
  }

  // ----- duplication -----

  /** The stages of a board in order; the copies are numbered from `base` in that order. */
  function StageOrder(d: Desk, b: BoardId): (o: seq<StageId>)
    ensures forall i | 0 <= i < |o| :: o[i] in BoardStages(d, b)
  {
    Ordered(BoardStages(d, b), StagePositions(d))
  }

  function TaskOrder(d: Desk, b: BoardId): (o: seq<TaskId>)
    ensures forall i | 0 <= i < |o| :: o[i] in BoardTasks(d, b)
  {
    Ordered(BoardTasks(d, b), TaskPositions(d))
  }

  function CopyOf(order: seq<nat>, base: nat, x: nat): nat
    requires x in order
  {
    base + IndexOf(order, x)
  }

  function StageImage(d: Desk, b: BoardId, base: StageId, st: Option<StageId>): Option<StageId> {
    if st.Some? && st.value in StageOrder(d, b) then Some(CopyOf(StageOrder(d, b), base, st.value)) else None
  }

  /** Rows inserted one after the other under consecutive new numbers. */
  function Inserted<T>(base: nat, rows: seq<T>): (m: map<nat, T>)
    ensures forall k | k in m :: base <= k < base + |rows| && m[k] == rows[k - base]
  {
    if rows == [] then map[]
    else
      var n := |rows| - 1;
      Inserted(base, rows[..n])[base + n := rows[n]]
  }

  lemma {:induction false} InsertedAt<T>(base: nat, rows: seq<T>, k: nat)
    requires base <= k < base + |rows|
    ensures k in Inserted(base, rows) && Inserted(base, rows)[k] == rows[k - base]
    decreases |rows|
  {
    if k < base + |rows| - 1 { InsertedAt(base, rows[..|rows| - 1], k); }
  }

  function StageCopies(d: Desk, b: BoardId, target: BoardId): (copies: seq<Stage>)
    ensures var order := StageOrder(d, b);
            |copies| == |order| && forall i | 0 <= i < |order| :: copies[i] == d.stages[order[i]].(board := target)
  {
    var order := StageOrder(d, b);
    seq(|order|, i requires 0 <= i < |order| => d.stages[order[i]].(board := target))
  }

  /** A copied card: same content, no run, first revision. */
  function CopiedTask(d: Desk, b: BoardId, target: BoardId, base: StageId, task: Task): Task {
    task.(board := target, stage := Or(StageImage(d, b, base, Some(task.stage)), 0), revision := 1, activeRun := None)
  }

  function TaskCopies(d: Desk, b: BoardId, target: BoardId, base: StageId): (copies: seq<Task>)
    ensures var order := TaskOrder(d, b);
            |copies| == |order| && forall i | 0 <= i < |order| :: copies[i] == CopiedTask(d, b, target, base, d.tasks[order[i]])
  {
    var order := TaskOrder(d, b);
    seq(|order|, i requires 0 <= i < |order| => CopiedTask(d, b, target, base, d.tasks[order[i]]))
  }

  predicate CanDuplicate(d: Desk, b: BoardId, target: BoardId, base: StageId, taskBase: TaskId) {
    && b in d.boards && target !in d.boards
    && (forall st | st in d.stages :: st < base)
    && (forall t | t in d.tasks :: t < taskBase)
  }

  function DuplicateBoard(d: Desk, b: BoardId, target: BoardId, base: StageId, taskBase: TaskId,
                          withTasks: bool, owner: Option<Option<AgentId>>): Desk {
    if !CanDuplicate(d, b, target, base, taskBase) then d
    else d.(
      boards := d.boards[target := Board(false, 1, StageImage(d, b, base, RunStage(d, b)), StageImage(d, b, base, DoneStage(d, b)),
                                         Or(owner, d.boards[b].defaultOwner))],
      stages := d.stages + Inserted(base, StageCopies(d, b, target)),
      tasks := if withTasks then d.tasks + Inserted(taskBase, TaskCopies(d, b, target, base)) else d.tasks)
  }

  /** `order` lists stages of `d`; `d'` has one copy of each for the board `target`, and nothing else new. */
  ghost predicate StagesCopied(d: Desk, d': Desk, order: seq<StageId>, target: BoardId, base: StageId) {
    && (forall i | 0 <= i < |order| :: order[i] in d.stages)
    && (forall i | 0 <= i < |order| :: base + i in d'.stages && d'.stages[base + i] == d.stages[order[i]].(board := target))
    && (forall st: StageId :: st in BoardStages(d', target) <==> base <= st < base + |order|)
    && (forall st | st in d.stages :: st in d'.stages && d'.stages[st] == d.stages[st])
  }

  lemma StagesAreCopied(d: Desk, d': Desk, order: seq<StageId>, copies: seq<Stage>, target: BoardId, base: StageId)
    requires forall st | st in d.stages :: st < base && d.stages[st].board != target
    requires |copies| == |order|
    requires forall i | 0 <= i < |order| :: order[i] in d.stages && copies[i] == d.stages[order[i]].(board := target)
    requires d'.stages == d.stages + Inserted(base, copies)
    ensures StagesCopied(d, d', order, target, base)
  {
    forall st: StageId | base <= st < base + |order| ensures st in d'.stages && d'.stages[st] == copies[st - base] {
      InsertedAt(base, copies, st);
    }
    CopiesOnTarget(d, d', order, copies, target, base);
  }

  lemma CopiesOnTarget(d: Desk, d': Desk, order: seq<StageId>, copies: seq<Stage>, target: BoardId, base: StageId)
    requires forall st | st in d.stages :: st < base && d.stages[st].board != target && st in d'.stages && d'.stages[st] == d.stages[st]
    requires |copies| == |order|
    requires forall i | 0 <= i < |order| :: order[i] in d.stages && copies[i] == d.stages[order[i]].(board := target)
    requires forall st: StageId | base <= st < base + |order| :: st in d'.stages && d'.stages[st] == copies[st - base]
    requires forall st | st in d'.stages :: st in d.stages || base <= st < base + |order|
    ensures StagesCopied(d, d', order, target, base)
  {
    forall i | 0 <= i < |order| ensures base + i in d'.stages && d'.stages[base + i] == copies[i] {
      assert base <= base + i < base + |order|;
    }
  }

  lemma CopiedListing(pos: map<nat, real>, pos': map<nat, real>, order: seq<StageId>, copy: seq<StageId>)
    requires (forall x | x in order :: x in pos) && Sorted(order, pos) && |copy| == |order|
    requires forall i | 0 <= i < |order| :: copy[i] in pos' && pos'[copy[i]] == pos[order[i]]
    requires forall i, j | 0 <= i < j < |copy| :: copy[i] < copy[j]
    ensures (forall x | x in copy :: x in pos') && Sorted(copy, pos')
  {
    forall i, j | 0 <= i < j < |copy| ensures Before(pos', copy[i], copy[j]) { assert Before(pos, order[i], order[j]); }
  }

  function Consecutive(base: nat, n: nat): (r: seq<nat>)
    ensures |r| == n && forall i | 0 <= i < n :: r[i] == base + i
    ensures forall x :: x in r <==> base <= x < base + n
  {
    if n == 0 then [] else Consecutive(base, n - 1) + [base + n - 1]
  }

  /** The copies follow each other like the originals. */
  lemma CopiedOrder(d: Desk, d': Desk, b: BoardId, target: BoardId, base: StageId)
    requires StagesCopied(d, d', StageOrder(d, b), target, base)
    ensures StageOrder(d', target) == Consecutive(base, |StageOrder(d, b)|)
  {
    var order, copy := StageOrder(d, b), Consecutive(base, |StageOrder(d, b)|);
    var pos, pos' := StagePositions(d), StagePositions(d');
    forall i | 0 <= i < |order| ensures copy[i] in pos' && pos'[copy[i]] == pos[order[i]] {
      assert base + i in d'.stages && d'.stages[base + i].position == d.stages[order[i]].position;
    }
    CopiedListing(pos, pos', order, copy);
    assert Elements(copy) == BoardStages(d', target);
    OrderedUnique(copy, BoardStages(d', target), pos');
  }

  /** The copy's settings, read back from its own table, are the images of the original's. */
  lemma CopiedSetting(d: Desk, d': Desk, b: BoardId, target: BoardId, base: StageId, setting: Option<StageId>, fallback: Category)
    requires StagesCopied(d, d', StageOrder(d, b), target, base)
    requires setting.Some? ==> setting.value in BoardStages(d, b)
    requires setting.None? ==> StagesOf(d, b, fallback) == {}
    ensures Setting(d', target, StageImage(d, b, base, setting), fallback) == StageImage(d, b, base, setting)
    ensures StageImage(d, b, base, setting).Some? <==> setting.Some?
  {
    var order := StageOrder(d, b);
    assert forall st: StageId :: st in order <==> st in BoardStages(d, b);
    if setting.Some? {
      assert setting.value in order;
      CopyIsOnTarget(d, d', order, target, base, setting.value);
    } else {
      NothingToCopy(d, d', b, order, target, base, fallback);
    }
  }

  lemma CopyIsOnTarget(d: Desk, d': Desk, order: seq<StageId>, target: BoardId, base: StageId, st: StageId)
    requires StagesCopied(d, d', order, target, base) && st in order
    ensures CopyOf(order, base, st) in BoardStages(d', target)
  {
    assert 0 <= IndexOf(order, st) < |order|;
  }

  lemma NothingToCopy(d: Desk, d': Desk, b: BoardId, order: seq<StageId>, target: BoardId, base: StageId, c: Category)
    requires StagesCopied(d, d', order, target, base) && forall st: StageId :: st in order <==> st in BoardStages(d, b)
    requires StagesOf(d, b, c) == {}
    ensures StagesOf(d', target, c) == {}
  {
    forall st: StageId | st in BoardStages(d', target) ensures d'.stages[st].category != c {
      var i := st - base;
      assert 0 <= i < |order| && d'.stages[base + i] == d.stages[order[i]].(board := target);
      assert order[i] in order && order[i] in BoardStages(d, b) && order[i] !in StagesOf(d, b, c);
    }
    assert StagesOf(d', target, c) <= BoardStages(d', target);
  }

  /** `duplicateBoard` yields an isomorphic board: the i-th stage is a copy of the i-th stage, the run
      and completion stages are the images of the original's, each card has one copy on the image of
      its stage, and nothing that existed is changed. */
  lemma DuplicateIsIsomorphic(d: Desk, b: BoardId, target: BoardId, base: StageId, taskBase: TaskId, owner: Option<Option<AgentId>>)
    requires BoardInv(d) && CanDuplicate(d, b, target, base, taskBase)
    ensures var d' := DuplicateBoard(d, b, target, base, taskBase, true, owner);
            && StagesCopied(d, d', StageOrder(d, b), target, base)
            && StageOrder(d', target) == Consecutive(base, |StageOrder(d, b)|)
            && RunStage(d', target) == StageImage(d, b, base, RunStage(d, b))
            && DoneStage(d', target) == StageImage(d, b, base, DoneStage(d, b))
            && (RunStage(d, b).Some? <==> RunStage(d', target).Some?)
            && (DoneStage(d, b).Some? <==> DoneStage(d', target).Some?)
  {
    var d' := DuplicateBoard(d, b, target, base, taskBase, true, owner);
    StagesAreCopied(d, d', StageOrder(d, b), StageCopies(d, b, target), target, base);
    CopiedOrder(d, d', b, target, base);
    SettingsResolve(d, b, d.boards[b].runStage, InProgress);
    SettingsResolve(d, b, d.boards[b].doneStage, Review);
    CopiedSetting(d, d', b, target, base, RunStage(d, b), InProgress);
    CopiedSetting(d, d', b, target, base, DoneStage(d, b), Review);
  }

  /** `order` lists cards of `d`; `d'` has one copy of each on the board `target`, and nothing else new. */
  ghost predicate TasksCopied(d: Desk, d': Desk, order: seq<TaskId>, copies: seq<Task>, target: BoardId, taskBase: TaskId) {
    && |copies| == |order|
    && (forall i | 0 <= i < |order| :: taskBase + i in d'.tasks && d'.tasks[taskBase + i] == copies[i])
    && (forall t: TaskId :: t in BoardTasks(d', target) <==> taskBase <= t < taskBase + |order|)
    && (forall t | t in d.tasks :: t in d'.tasks && d'.tasks[t] == d.tasks[t])
  }

  lemma TasksAreCopied(d: Desk, d': Desk, order: seq<TaskId>, copies: seq<Task>, target: BoardId, taskBase: TaskId)
    requires forall t | t in d.tasks :: t < taskBase && d.tasks[t].board != target
    requires |copies| == |order| && forall i | 0 <= i < |copies| :: copies[i].board == target
    requires d'.tasks == d.tasks + Inserted(taskBase, copies)
    ensures TasksCopied(d, d', order, copies, target, taskBase)
  {
    forall t: TaskId | taskBase <= t < taskBase + |order| ensures t in d'.tasks && d'.tasks[t] == copies[t - taskBase] {
      InsertedAt(taskBase, copies, t);
    }
    forall i | 0 <= i < |order| ensures taskBase + i in d'.tasks && d'.tasks[taskBase + i] == copies[i] {
      InsertedAt(taskBase, copies, taskBase + i);
    }
  }

  lemma CopiedTaskFacts(d: Desk, b: BoardId, target: BoardId, base: StageId, t: TaskId)
    requires BoardInv(d) && t in BoardTasks(d, b)
    ensures var copy := CopiedTask(d, b, target, base, d.tasks[t]);
            && copy.board == target
            && StageImage(d, b, base, Some(d.tasks[t].stage)) == Some(copy.stage)
            && base <= copy.stage < base + |StageOrder(d, b)|
  {
    assert d.tasks[t].stage in BoardStages(d, b);
  }

  lemma CopiesSitOnCopies(d: Desk, b: BoardId, target: BoardId, base: StageId)
    requires BoardInv(d)
    ensures var order, copies := TaskOrder(d, b), TaskCopies(d, b, target, base);
            forall i | 0 <= i < |order| ::
              && copies[i].board == target
              && StageImage(d, b, base, Some(d.tasks[order[i]].stage)) == Some(copies[i].stage)
              && base <= copies[i].stage < base + |StageOrder(d, b)|
  {
    var order, copies := TaskOrder(d, b), TaskCopies(d, b, target, base);
    forall i | 0 <= i < |order|
      ensures copies[i].board == target
      ensures StageImage(d, b, base, Some(d.tasks[order[i]].stage)) == Some(copies[i].stage)
      ensures base <= copies[i].stage < base + |StageOrder(d, b)|
    {
      CopiedTaskFacts(d, b, target, base, order[i]);
    }
  }

  lemma NewBoardIsUnused(d: Desk, target: BoardId)
    requires BoardInv(d) && target !in d.boards
    ensures forall t | t in d.tasks :: d.tasks[t].board != target
    ensures forall st | st in d.stages :: d.stages[st].board != target
  {}

  /** The cards of the copy are exactly one image per original card, each on the image of its stage, without a run
      and otherwise with the same content. */
  lemma DuplicateCopiesCards(d: Desk, b: BoardId, target: BoardId, base: StageId, taskBase: TaskId, owner: Option<Option<AgentId>>)
    requires BoardInv(d) && CanDuplicate(d, b, target, base, taskBase)
    ensures var order, copies := TaskOrder(d, b), TaskCopies(d, b, target, base);
            && TasksCopied(d, DuplicateBoard(d, b, target, base, taskBase, true, owner), order, copies, target, taskBase)
            && forall i | 0 <= i < |order| ::
                 && StageImage(d, b, base, Some(d.tasks[order[i]].stage)) == Some(copies[i].stage)
                 && copies[i] == d.tasks[order[i]].(board := target, stage := copies[i].stage, revision := 1, activeRun := None)
  {
    CopiesSitOnCopies(d, b, target, base);
    NewBoardIsUnused(d, target);
    TasksAreCopied(d, DuplicateBoard(d, b, target, base, taskBase, true, owner), TaskOrder(d, b), TaskCopies(d, b, target, base),
                   target, taskBase);
  }

  /** A copied card keeps its assignment and has no run. */
  ghost predicate IsCopy(copy: Task, original: Task) {
    && copy.activeRun.None? && copy.team == original.team && copy.owner == original.owner
    && copy.collaborators == original.collaborators && copy.archived == original.archived
  }

  ghost predicate HasOriginal(d: Desk, copy: Task) {
    exists q | q in d.tasks :: IsCopy(copy, d.tasks[q])
  }

  lemma CopiesHaveOriginals(d: Desk, b: BoardId, target: BoardId, base: StageId, i: nat)
    requires i < |TaskCopies(d, b, target, base)|
    ensures HasOriginal(d, TaskCopies(d, b, target, base)[i])
  {
    var q := TaskOrder(d, b)[i];
    assert q in BoardTasks(d, b);
    assert IsCopy(TaskCopies(d, b, target, base)[i], d.tasks[q]);
  }

  lemma InsertedTasks(d: Desk, tasks': map<TaskId, Task>, copies: seq<Task>, taskBase: TaskId, t: TaskId)
    requires tasks' == d.tasks + Inserted(taskBase, copies) && t in tasks'
    requires forall x | x in d.tasks :: x < taskBase
    requires forall i: nat | i < |copies| :: HasOriginal(d, copies[i])
    ensures if t in d.tasks then tasks'[t] == d.tasks[t] else HasOriginal(d, tasks'[t])
  {
    if t !in d.tasks { assert tasks'[t] == copies[t - taskBase]; }
  }

  lemma AllCopiesHaveOriginals(d: Desk, b: BoardId, target: BoardId, base: StageId)
    ensures forall i: nat | i < |TaskCopies(d, b, target, base)| :: HasOriginal(d, TaskCopies(d, b, target, base)[i])
  {
    forall i: nat | i < |TaskCopies(d, b, target, base)| ensures HasOriginal(d, TaskCopies(d, b, target, base)[i]) {
      CopiesHaveOriginals(d, b, target, base, i);
    }
  }

  lemma DuplicatedTaskOrigin(d: Desk, b: BoardId, target: BoardId, base: StageId, taskBase: TaskId, withTasks: bool,
                             owner: Option<Option<AgentId>>, t: TaskId)
    requires t in DuplicateBoard(d, b, target, base, taskBase, withTasks, owner).tasks
    ensures var d' := DuplicateBoard(d, b, target, base, taskBase, withTasks, owner);
            if t in d.tasks then d'.tasks[t] == d.tasks[t] else HasOriginal(d, d'.tasks[t])
  {
    var tasks' := DuplicateBoard(d, b, target, base, taskBase, withTasks, owner).tasks;
    if CanDuplicate(d, b, target, base, taskBase) {
      DuplicateTables(d, b, target, base, taskBase, withTasks, owner);
      if withTasks {
        AllCopiesHaveOriginals(d, b, target, base);
        InsertedTasks(d, tasks', TaskCopies(d, b, target, base), taskBase, t);
      }
    }
  }

  lemma DuplicateKeepsTasks(d: Desk, b: BoardId, target: BoardId, base: StageId, taskBase: TaskId, withTasks: bool,
                            owner: Option<Option<AgentId>>)
    ensures var d' := DuplicateBoard(d, b, target, base, taskBase, withTasks, owner);
            && d'.links == d.links && d'.teams == d.teams
            && (forall t | t in d.tasks :: t in d'.tasks && d'.tasks[t] == d.tasks[t])
            && (forall t | t in d'.tasks && t !in d.tasks :: HasOriginal(d, d'.tasks[t]))
  {
    var d' := DuplicateBoard(d, b, target, base, taskBase, withTasks, owner);
    assert forall t | t in d.tasks :: t in d'.tasks;
    forall t | t in d'.tasks ensures if t in d.tasks then d'.tasks[t] == d.tasks[t] else HasOriginal(d, d'.tasks[t]) {
      DuplicatedTaskOrigin(d, b, target, base, taskBase, withTasks, owner, t);
    }
  }

  /** The tables of a copy, without the settings. */
  lemma DuplicateTables(d: Desk, b: BoardId, target: BoardId, base: StageId, taskBase: TaskId, withTasks: bool,
                        owner: Option<Option<AgentId>>)
    requires CanDuplicate(d, b, target, base, taskBase)
    ensures var d' := DuplicateBoard(d, b, target, base, taskBase, withTasks, owner);
            && d'.boards.Keys == d.boards.Keys + {target}
            && d'.stages == d.stages + Inserted(base, StageCopies(d, b, target))
            && d'.tasks == (if withTasks then d.tasks + Inserted(taskBase, TaskCopies(d, b, target, base)) else d.tasks)
  {}

  lemma CopiedStageRows(d: Desk, b: BoardId, target: BoardId)
    ensures var order, stages := StageOrder(d, b), StageCopies(d, b, target);
            |stages| == |order| && forall i | 0 <= i < |order| :: order[i] in d.stages && stages[i] == d.stages[order[i]].(board := target)
  {}

  lemma CopiedTaskRows(d: Desk, b: BoardId, target: BoardId, base: StageId)
    requires BoardInv(d)
    ensures forall i | 0 <= i < |TaskCopies(d, b, target, base)| ::
              TaskCopies(d, b, target, base)[i].board == target
              && base <= TaskCopies(d, b, target, base)[i].stage < base + |StageOrder(d, b)|
  {
    CopiesSitOnCopies(d, b, target, base);
  }

  lemma DuplicateKeepsBoardInv(d: Desk, b: BoardId, target: BoardId, base: StageId, taskBase: TaskId, withTasks: bool,
                               owner: Option<Option<AgentId>>)
    requires BoardInv(d)
    ensures BoardInv(DuplicateBoard(d, b, target, base, taskBase, withTasks, owner))
  {
    if CanDuplicate(d, b, target, base, taskBase) {
      DuplicateTables(d, b, target, base, taskBase, withTasks, owner);
      CopiedTablesKeepBoardInv(d, DuplicateBoard(d, b, target, base, taskBase, withTasks, owner), b, target, base, taskBase);
    }
  }

  lemma CopiedTablesKeepBoardInv(d: Desk, d': Desk, b: BoardId, target: BoardId, base: StageId, taskBase: TaskId)
    requires BoardInv(d) && CanDuplicate(d, b, target, base, taskBase)
    requires d'.boards.Keys == d.boards.Keys + {target} && d'.stages == d.stages + Inserted(base, StageCopies(d, b, target))
    requires d'.tasks == d.tasks || d'.tasks == d.tasks + Inserted(taskBase, TaskCopies(d, b, target, base))
    ensures BoardInv(d')
  {
    NewBoardIsUnused(d, target);
    CopiedStageRows(d, b, target);
    CopiedTaskRows(d, b, target, base);
    CopiedTablesAreWellFormed(d, d', StageOrder(d, b), StageCopies(d, b, target), TaskCopies(d, b, target, base), target, base,
                              taskBase);
  }

  lemma CopiedTablesAreWellFormed(d: Desk, d': Desk, order: seq<StageId>, stages: seq<Stage>, copies: seq<Task>, target: BoardId,
                                  base: StageId, taskBase: TaskId)
    requires BoardInv(d) && d'.boards.Keys == d.boards.Keys + {target}
    requires forall st | st in d.stages :: st < base && d.stages[st].board != target
    requires forall i | 0 <= i < |copies| :: copies[i].board == target && base <= copies[i].stage < base + |order|
    requires d'.tasks == d.tasks || d'.tasks == d.tasks + Inserted(taskBase, copies)
    requires |stages| == |order| && d'.stages == d.stages + Inserted(base, stages)
    requires forall i | 0 <= i < |order| :: order[i] in d.stages && stages[i] == d.stages[order[i]].(board := target)
    ensures BoardInv(d')
  {
    StagesAreCopied(d, d', order, stages, target, base);
    CopiedIsWellFormed(d, d', order, stages, copies, target, base, taskBase);
  }

  lemma CopiedIsWellFormed(d: Desk, d': Desk, order: seq<StageId>, stages: seq<Stage>, copies: seq<Task>, target: BoardId,
                           base: StageId, taskBase: TaskId)
    requires BoardInv(d) && StagesCopied(d, d', order, target, base) && d'.boards.Keys == d.boards.Keys + {target}
    requires forall i | 0 <= i < |copies| :: copies[i].board == target && base <= copies[i].stage < base + |order|
    requires d'.tasks == d.tasks || d'.tasks == d.tasks + Inserted(taskBase, copies)
    requires |stages| == |order| && d'.stages == d.stages + Inserted(base, stages)
    ensures BoardInv(d')
  {
    forall st | st in d'.stages ensures d'.stages[st].board in d'.boards {
      if st in d.stages {
        assert d.stages[st].board in d.boards;
      } else {
        assert st in Inserted(base, stages);
        assert st in BoardStages(d', target);
      }
    }
    forall t | t in d.tasks ensures d.tasks[t].stage in BoardStages(d', d.tasks[t].board) {
      assert d.tasks[t].stage in BoardStages(d, d.tasks[t].board);
    }
    forall t | t in Inserted(taskBase, copies)
      ensures Inserted(taskBase, copies)[t].board == target && Inserted(taskBase, copies)[t].stage in BoardStages(d', target)
    {
      assert Inserted(taskBase, copies)[t] == copies[t - taskBase];
    }
  }
}
