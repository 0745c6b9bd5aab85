/** `TaskStore` and `TeamStore` (runtime/tasks.ts, runtime/teams.ts): the board operations on the tables. */
module TaskTables {
  import opened Rows
  import opened Ranking
  import opened Cards
  import opened Desk
  import Rules = Desk
  import opened Boards
  import opened Database

  class TaskStore {
    const db: Tables

    constructor (db: Tables)
      ensures this.db == db
    {
      this.db := db;
    }

    // ----- cards -----

    method UpdateTask(t: TaskId, p: Patch)
      modifies db`tasks
      ensures db.Board() == Rules.UpdateTask(db.runs, old(db.Board()), t, p)
    {
      if t !in db.tasks || p.revision != db.tasks[t].revision { return; }
      var task := db.tasks[t];
      var locked := Locked(db.runs, task);
      var board, stage, team := Or(p.board, task.board), Or(p.stage, task.stage), Or(p.team, task.team);
      var owner, archived := Or(p.owner, task.owner), Or(p.archived, task.archived);
      var collaboratorsChanged := p.collaborators.Some? && p.collaborators.value != task.collaborators;
      if locked && (board != task.board || stage != task.stage || team != task.team || owner != task.owner
                    || collaboratorsChanged || archived != task.archived) { return; }
      if board !in db.boards || !(stage in db.stages && db.stages[stage].board == board) { return; }
      task := Task(board, stage, team, owner, Or(p.collaborators, task.collaborators), Or(p.position, task.position),
                   archived, task.revision + 1, task.activeRun);
      db.tasks := db.tasks[t := task];
    }

    /** `findIndex` */
    method FindIndex(siblings: seq<TaskId>, before: Option<TaskId>) returns (place: int)
      ensures place == PlaceOf(siblings, before)
    {
      if before.None? { return -1; }
      var i := 0;
      while i < |siblings|
        invariant 0 <= i <= |siblings|
        invariant before.value !in siblings[..i]
      {
        if siblings[i] == before.value {
          FirstIndex(siblings, before.value, i);
          return i;
        }
        i := i + 1;
      }
      assert siblings[..i] == siblings;
      place := -1;
    }

    method IsCrowded(all: seq<TaskId>) returns (crowded: bool)
      requires forall x | x in all :: x in db.tasks
      ensures crowded <==> Crowded(all, TaskPositions(db.Board()))
    {
      var i := 1;
      while i < |all|
        invariant 1 <= i && (i <= |all| || |all| == 0)
        invariant forall k | 0 < k < i && k < |all| :: db.tasks[all[k]].position - db.tasks[all[k - 1]].position >= MIN_GAP
      {
        if db.tasks[all[i]].position - db.tasks[all[i - 1]].position < MIN_GAP { return true; }
        i := i + 1;
      }
      crowded := false;
    }

    /** Gives the listed cards the positions 1000, 2000, ... */
    method Renumber(all: seq<TaskId>)
      requires (forall x | x in all :: x in db.tasks) && forall i, j | 0 <= i < j < |all| :: all[i] != all[j]
      modifies db`tasks
      ensures db.tasks == WithPositions(old(db.tasks), WithRenumbered(all, TaskPositions(old(db.Board()))))
    {
      var i := 0;
      while i < |all|
        invariant 0 <= i <= |all| && db.tasks.Keys == old(db.tasks).Keys
        invariant forall k | 0 <= k < i :: db.tasks[all[k]] == old(db.tasks)[all[k]].(position := (k + 1) as real * STEP)
        invariant forall x | x in db.tasks && x !in all[..i] :: db.tasks[x] == old(db.tasks)[x]
      {
        assert all[..i + 1] == all[..i] + [all[i]];
        assert all[i] !in all[..i];
        db.tasks := db.tasks[all[i] := db.tasks[all[i]].(position := (i + 1) as real * STEP)];
        i := i + 1;
      }
      assert all[..i] == all;
      RenumberedTasks(old(db.tasks), db.tasks, all);
    }

    method Move(t: TaskId, stage: StageId, before: Option<TaskId>, owner: Option<Option<AgentId>>)
      modifies db`tasks
      ensures db.Board() == MoveTask(db.runs, old(db.Board()), t, stage, before, owner)
    {
      if t !in db.tasks || Locked(db.runs, db.tasks[t]) || stage !in BoardStages(db.Board(), db.tasks[t].board) { return; }
      Drop(t, stage, before, owner);
      Rebalance(stage);
    }

    method Drop(t: TaskId, stage: StageId, before: Option<TaskId>, owner: Option<Option<AgentId>>)
      requires t in db.tasks
      modifies db`tasks
      ensures db.Board() == Dropped(old(db.Board()), t, stage, before, owner)
    {
      var next := PositionFor(t, stage, before);
      var task := db.tasks[t];
      db.tasks := db.tasks[t := task.(stage := stage, owner := Or(owner, task.owner), position := next, revision := task.revision + 1)];
    }

    method PositionFor(t: TaskId, stage: StageId, before: Option<TaskId>) returns (next: real)
      requires t in db.tasks
      ensures next == DropPosition(db.Board(), t, stage, before)
    {
      var siblings := Siblings(db.Board(), t, stage);
      var place := FindIndex(siblings, before);
      next := PositionAt(siblings, place);
    }

    method PositionAt(siblings: seq<TaskId>, place: int) returns (next: real)
      requires (forall x | x in siblings :: x in db.tasks) && -1 <= place < |siblings|
      ensures next == NextPosition(siblings, TaskPositions(db.Board()), place)
    {
      if place < 0 {
        next := if siblings != [] then db.tasks[siblings[|siblings| - 1]].position + STEP else STEP;
      } else if place == 0 {
        next := db.tasks[siblings[0]].position - STEP;
      } else {
        next := (db.tasks[siblings[place - 1]].position + db.tasks[siblings[place]].position) / 2.0;
      }
    }

    /** The crowding check over the whole stage, archived cards included. */
    method Rebalance(stage: StageId)
      modifies db`tasks
      ensures var d := old(db.Board());
              db.Board() == d.(tasks := WithPositions(d.tasks, Settle(StageTasks(d, stage), TaskPositions(d))))
    {
      var all := Ordered(StageTasks(db.Board(), stage), TaskPositions(db.Board()));
      var crowded := IsCrowded(all);
      SamePositions(db.tasks);
      if crowded {
        forall i, j | 0 <= i < j < |all| ensures all[i] != all[j] {
          OrderedDistinct(StageTasks(db.Board(), stage), TaskPositions(db.Board()), i, j);
        }
        Renumber(all);
      }
    }

    method Approve(t: TaskId, revision: Option<nat>)
      modifies db`tasks
      ensures db.Board() == Rules.Approve(old(db.Board()), t, revision)
    {
      if t !in db.tasks || (revision.Some? && revision.value != db.tasks[t].revision) || db.tasks[t].activeRun.Some? { return; }
      var done := FirstOf(db.Board(), db.tasks[t].board, Done);
      if done.None? { return; }
      db.tasks := db.tasks[t := db.tasks[t].(stage := done.value, revision := db.tasks[t].revision + 1)];
    }

    // ----- stages and boards -----

    /** The cards first, then the stage, then the settings that may have named it. */
    method RemoveStage(st: StageId, to: Option<StageId>)
      modifies db`tasks, db`stages, db`boards
      ensures db.Board() == Rules.RemoveStage(old(db.Board()), st, to)
    {
      if !CanRemoveStage(db.Board(), st, to) { return; }
      var b := db.stages[st].board;
      if to.Some? { MoveCards(st, to.value); }
      if StageTasks(db.Board(), st) != {} || b !in db.boards { return; }
      db.stages := db.stages - {st};
      var run, done := RunStage(db.Board(), b), DoneStage(db.Board(), b);
      db.boards := db.boards[b := db.boards[b].(runStage := run, doneStage := done, revision := db.boards[b].revision + 1)];
    }

    method MoveCards(from: StageId, to: StageId)
      modifies db`tasks
      ensures db.Board() == Relocate(old(db.Board()), from, to)
    {
      var rest := StageTasks(db.Board(), from);
      ghost var all, before := rest, db.tasks;
      while rest != {}
        invariant rest <= all <= before.Keys == db.tasks.Keys
        invariant forall t | t in all - rest :: db.tasks[t] == before[t].(stage := to, revision := before[t].revision + 1)
        invariant forall t | t in before && t !in all - rest :: db.tasks[t] == before[t]
        decreases |rest|
      {
        var t :| t in rest;
        db.tasks := db.tasks[t := db.tasks[t].(stage := to, revision := db.tasks[t].revision + 1)];
        rest := rest - {t};
      }
      assert forall t | t in before :: t in all <==> before[t].stage == from;
      assert db.tasks == Relocate(old(db.Board()), from, to).tasks;
    }

    /** `duplicateBoard`: stages in order, settings through the new identifiers, then the cards. */
    method DuplicateBoard(b: BoardId, target: BoardId, base: StageId, taskBase: TaskId, withTasks: bool, owner: Option<Option<AgentId>>)
      requires BoardInv(db.Board()) && CanDuplicate(db.Board(), b, target, base, taskBase)
      modifies db`tasks, db`stages, db`boards
      ensures db.Board() == Boards.DuplicateBoard(old(db.Board()), b, target, base, taskBase, withTasks, owner)
    {
      ghost var d := db.Board();
      var order := StageOrder(db.Board(), b);
      var run, done := StageImage(db.Board(), b, base, RunStage(db.Board(), b)), StageImage(db.Board(), b, base, DoneStage(db.Board(), b));
      var cards := TaskOrder(db.Board(), b);
      var copies := TaskCopies(db.Board(), b, target, base);
      CopyStages(order, target, base);
      assert db.stages == d.stages + Inserted(base, StageCopies(d, b, target));
      db.boards := db.boards[target := Board(false, 1, run, done, Or(owner, db.boards[b].defaultOwner))];
      if withTasks { InsertTasks(copies, taskBase); }
    }

    /** The rows are copied as they were read before the first insertion. */
    method CopyStages(order: seq<StageId>, target: BoardId, base: StageId)
      requires forall st | st in order :: st in db.stages
      modifies db`stages
      ensures db.stages == old(db.stages) + Inserted(base, Retargeted(old(db.stages), order, target))
    {
      var source := Retargeted(db.stages, order, target);
      var i := 0;
      while i < |source|
        invariant 0 <= i <= |source| && db.stages == old(db.stages) + Inserted(base, source[..i])
      {
        InsertedNext(old(db.stages), base, source, i);
        db.stages := db.stages[base + i := source[i]];
        i := i + 1;
      }
      assert source[..i] == source;
    }

    method InsertTasks(copies: seq<Task>, taskBase: TaskId)
      modifies db`tasks
      ensures db.tasks == old(db.tasks) + Inserted(taskBase, copies)
    {
      var i := 0;
      while i < |copies|
        invariant 0 <= i <= |copies| && db.tasks == old(db.tasks) + Inserted(taskBase, copies[..i])
      {
        InsertedNext(old(db.tasks), taskBase, copies, i);
        db.tasks := db.tasks[taskBase + i := copies[i]];
        i := i + 1;
      }
      assert copies[..i] == copies;
    }
  }

  lemma InsertedNext<T>(before: map<nat, T>, base: nat, rows: seq<T>, i: nat)
    requires i < |rows|
    ensures before + Inserted(base, rows[..i + 1]) == (before + Inserted(base, rows[..i]))[base + i := rows[i]]
  {
    assert rows[..i + 1][..i] == rows[..i];
  }

  function Retargeted(stages: map<StageId, Stage>, order: seq<StageId>, target: BoardId): (r: seq<Stage>)
    requires forall st | st in order :: st in stages
    ensures |r| == |order| && forall i | 0 <= i < |r| :: r[i] == stages[order[i]].(board := target)
  {
    seq(|order|, i requires 0 <= i < |order| => stages[order[i]].(board := target))
  }

  lemma {:induction false} FirstIndex(o: seq<nat>, x: nat, i: nat)
    requires i < |o| && o[i] == x && x !in o[..i]
    ensures IndexOf(o, x) == i
  {
  }

  lemma RenumberedTasks(tasks: map<TaskId, Task>, tasks': map<TaskId, Task>, all: seq<TaskId>)
    requires (forall x | x in all :: x in tasks) && tasks'.Keys == tasks.Keys
    requires forall k | 0 <= k < |all| :: tasks'[all[k]] == tasks[all[k]].(position := (k + 1) as real * STEP)
    requires forall x | x in tasks && x !in all :: tasks'[x] == tasks[x]
    ensures tasks' == WithPositions(tasks, WithRenumbered(all, map t | t in tasks :: tasks[t].position))
  {
    var pos := WithRenumbered(all, map t | t in tasks :: tasks[t].position);
    forall x | x in tasks ensures tasks'[x] == tasks[x].(position := pos[x]) {
      RenumberedTask(tasks, tasks', all, x);
    }
    PositionedTasks(tasks, tasks', pos);
  }

  lemma RenumberedTask(tasks: map<TaskId, Task>, tasks': map<TaskId, Task>, all: seq<TaskId>, x: TaskId)
    requires x in tasks && x in tasks' && forall y | y in all :: y in tasks && y in tasks'
    requires forall k | 0 <= k < |all| :: tasks'[all[k]] == tasks[all[k]].(position := (k + 1) as real * STEP)
    requires x !in all ==> tasks'[x] == tasks[x]
    ensures tasks'[x] == tasks[x].(position := if x in all then (IndexOf(all, x) + 1) as real * STEP else tasks[x].position)
  {
    if x in all { assert all[IndexOf(all, x)] == x; }
  }

  lemma PositionedTasks(tasks: map<TaskId, Task>, tasks': map<TaskId, Task>, pos: map<nat, real>)
    requires tasks'.Keys == tasks.Keys <= pos.Keys
    requires forall x | x in tasks :: tasks'[x] == tasks[x].(position := pos[x])
    ensures tasks' == WithPositions(tasks, pos)
  {}

  lemma SamePositions(tasks: map<TaskId, Task>)
    ensures WithPositions(tasks, map t | t in tasks :: tasks[t].position) == tasks
  {}

  class TeamStore {
    const db: Tables

    constructor (db: Tables)
      ensures this.db == db
    {
      this.db := db;
    }

    /** `replaceMembers`: refused when a member who would leave owns or helps with a current task of the team. */
    method ReplaceMembers(team: TeamId, next: set<AgentId>) returns (ok: bool)
      requires team in db.teams
      modifies db`teams
      ensures ok <==> forall a | a in old(db.teams)[team].members && a !in next :: MayLeave(old(db.Board()), team, a)
      ensures db.teams == if ok then old(db.teams)[team := old(db.teams)[team].(members := next)] else old(db.teams)
    {
      var removed := db.teams[team].members - next;
      var rest := removed;
      while rest != {}
        invariant rest <= removed
        invariant forall a | a in removed - rest :: MayLeave(db.Board(), team, a)
        decreases |rest|
      {
        var a :| a in rest;
        if !MayLeave(db.Board(), team, a) { return false; }
        rest := rest - {a};
      }
      db.teams := db.teams[team := db.teams[team].(members := next)];
      ok := true;
    }

    method Update(team: TeamId, revision: nat, name: Name, members: set<AgentId>)
      modifies db`teams
      ensures db.Board() == UpdateTeam(old(db.Board()), team, revision, name, members)
    {
      if team !in db.teams || db.teams[team].retired || db.teams[team].revision != revision { return; }
      if ActiveNamed(db.Board(), name) - {team} != {} { return; }
      var ok := ReplaceMembers(team, members);
      if ok { db.teams := db.teams[team := db.teams[team].(name := name, revision := revision + 1)]; }
    }

    /** Found by identifier, else by name among the active teams, else created. */
    method Import(id: Option<TeamId>, name: Name, members: set<AgentId>, newId: TeamId)
      modifies db`teams
      ensures db.Board() == ImportTeam(old(db.Board()), id, name, members, newId)
    {
      if id.Some? && id.value in db.teams && !db.teams[id.value].retired {
        Update(id.value, db.teams[id.value].revision, name, members);
        return;
      }
      var named := TeamNamed(db.Board(), name);
      if named.Some? {
        Update(named.value, db.teams[named.value].revision, name, members);
        return;
      }
      var team := Or(id, newId);
      if ActiveNamed(db.Board(), name) != {} || team in db.teams { return; }
      db.teams := db.teams[team := Team(name, 1, false, members)];
    }

    method Retire(team: TeamId)
      modifies db`teams
      ensures db.Board() == RetireTeam(old(db.Board()), team)
    {
      if team !in db.teams || db.teams[team].retired
         || exists t | t in db.tasks :: db.tasks[t].team == Some(team) && !db.tasks[t].archived { return; }
      db.teams := db.teams[team := Team(db.teams[team].name, db.teams[team].revision + 1, true, {})];
    }

    /** `validateAssignment` reads only. */
    method ValidateAssignment(team: Option<TeamId>, owner: Option<AgentId>, collaborators: set<AgentId>, legacy: bool)
        returns (others: Option<set<AgentId>>)
      ensures others.Some? <==> AssignmentAllowed(db.Board(), team, owner, collaborators, legacy)
      ensures others.Some? ==> others.value == if owner.Some? then collaborators - {owner.value} else collaborators
    {
      var helpers := if owner.Some? then collaborators - {owner.value} else collaborators;
      if team.None? { return if helpers != {} && !legacy then None else Some(helpers); }
      if team.value !in db.teams || db.teams[team.value].retired { return None; }
      var rest := helpers + if owner.Some? then {owner.value} else {};
      ghost var all := rest;
      while rest != {}
        invariant rest <= all && all - rest <= db.teams[team.value].members
        decreases |rest|
      {
        var a :| a in rest;
        if a !in db.teams[team.value].members { return None; }
        rest := rest - {a};
      }
      others := Some(helpers);
    }
  }
}
