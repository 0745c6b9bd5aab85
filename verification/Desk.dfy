/** The board tables of runtime/tasks.ts and runtime/teams.ts and what each operation does to them.
    A refused operation leaves the tables as they are. `runs` is the run table the boards join with. */
module Desk {
  import opened Rows
  import opened Ranking
  import opened Cards

  datatype Category = Backlog | Ready | InProgress | Review | Done

  datatype Stage = Stage(board: BoardId, category: Category, position: real)

  /** `runStage` and `doneStage` are the stored automation settings, valid or not. */
  datatype Board = Board(archived: bool, revision: nat, runStage: Option<StageId>, doneStage: Option<StageId>,
                         defaultOwner: Option<AgentId>)

  datatype Task = Task(
    board: BoardId, stage: StageId, team: Option<TeamId>, owner: Option<AgentId>, collaborators: set<AgentId>,
    position: real, archived: bool, revision: nat, activeRun: Option<RunId>)

  /** A row of `task_runs`; the idempotency key is unique per task. */
  datatype Link = Link(task: TaskId, attempt: nat, key: nat)

  /** A team name as the two comparisons of the code see it: `folded` is its `lower()`, which folds ASCII
      letters only, and `letters` is what `localeCompare` compares at accent sensitivity. */
  datatype Name = Name(folded: nat, letters: nat)

  /** A retired team keeps its name. */
  datatype Team = Team(name: Name, revision: nat, retired: bool, members: set<AgentId>)

  datatype Desk = Desk(
    boards: map<BoardId, Board>, stages: map<StageId, Stage>, tasks: map<TaskId, Task>,
    links: map<RunId, Link>, teams: map<TeamId, Team>)

  // ----- stages and settings -----

  function StagePositions(d: Desk): map<nat, real> {
    map st | st in d.stages :: d.stages[st].position
  }

  function BoardStages(d: Desk, b: BoardId): set<StageId> {
    set st | st in d.stages && d.stages[st].board == b
  }

  function StagesOf(d: Desk, b: BoardId, category: Category): set<StageId> {
    set st | st in d.stages && d.stages[st].board == b && d.stages[st].category == category
  }

  function FirstOf(d: Desk, b: BoardId, category: Category): Option<StageId> {
    var found := StagesOf(d, b, category);
    if found == {} then None else Some(Least(found, StagePositions(d)))
  }

  /** `settings`: a stored stage counts only if it is a stage of the board; otherwise the first
      stage of the fallback category is used, if there is one. */
  function Setting(d: Desk, b: BoardId, stored: Option<StageId>, fallback: Category): Option<StageId> {
    if stored.Some? && stored.value in BoardStages(d, b) then stored else FirstOf(d, b, fallback)
  }

  function RunStage(d: Desk, b: BoardId): Option<StageId> {
    if b in d.boards then Setting(d, b, d.boards[b].runStage, InProgress) else None
  }

  function DoneStage(d: Desk, b: BoardId): Option<StageId> {
    if b in d.boards then Setting(d, b, d.boards[b].doneStage, Review) else None
  }

  lemma SameBoardsSameDoneStage(d: Desk, d': Desk, b: BoardId)
    requires d'.boards == d.boards && d'.stages == d.stages
    ensures DoneStage(d', b) == DoneStage(d, b)
  {
    assert BoardStages(d', b) == BoardStages(d, b) && StagesOf(d', b, Review) == StagesOf(d, b, Review);
    assert StagePositions(d') == StagePositions(d);
  }

  // ----- runs and tasks -----

  predicate Locked(runs: seq<Run>, t: Task) {
    t.activeRun.Some? && t.activeRun.value < |runs| && !runs[t.activeRun.value].state.Terminal()
  }

  function SetTask(d: Desk, t: TaskId, task: Task): Desk { d.(tasks := d.tasks[t := task]) }

  /** `syncRun`, called with the run's new state. It does not ask whether the run is the active one. */
  function SyncRun(runs: seq<Run>, d: Desk, r: RunId): Desk
    requires r < |runs|
  {
    if r !in d.links || d.links[r].task !in d.tasks then d
    else
      var t := d.links[r].task;
      var task := d.tasks[t];
      if runs[r].state.Completed? then
        var review := DoneStage(d, task.board);
        if review.None? then d
        else SetTask(d, t, task.(stage := review.value, activeRun := None, revision := task.revision + 1))
      else if runs[r].state.Terminal() then SetTask(d, t, task.(activeRun := None, revision := task.revision + 1))
      else d
  }

  function LinksOf(links: map<RunId, Link>, t: TaskId): set<RunId> {
    set r | r in links && links[r].task == t
  }

  function Attempts(links: map<RunId, Link>, t: TaskId): set<nat> {
    set r | r in links && links[r].task == t :: links[r].attempt
  }

  function KeyHolders(d: Desk, t: TaskId, key: nat): set<RunId> {
    set r | r in d.links && d.links[r].task == t && d.links[r].key == key
  }

  lemma {:induction false} GreatestExists(S: set<nat>) returns (m: nat)
    requires S != {}
    ensures m in S && forall x | x in S :: x <= m
    decreases |S|
  {
    m :| m in S;
    if S != {m} {
      var rest := S - {m};
      var n := GreatestExists(rest);
      assert forall x | x in S :: x == m || x in rest;
      if m < n { m := n; }
    }
  }

  /** `COALESCE(MAX(attempt),0)` */
  function MaxOf(S: set<nat>): (m: nat)
    ensures S != {} ==> m in S
    ensures forall x | x in S :: x <= m
  {
    if S == {} then 0
    else
      assert exists m :: m in S && forall x | x in S :: x <= m by { var m := GreatestExists(S); }
      var m :| m in S && forall x | x in S :: x <= m;
      m
  }

  datatype StartCheck = Refuse | Repeat | Go(agent: AgentId, stage: StageId)

  /** The checks of `start`, in order: a repeated key is answered before anything else is checked. */
  function CheckStart(runs: seq<Run>, d: Desk, t: TaskId, key: nat, revision: Option<nat>): StartCheck {
    if t !in d.tasks then Refuse
    else if KeyHolders(d, t, key) != {} then Repeat
    else
      var task := d.tasks[t];
      if Locked(runs, task) || task.owner.None? || (revision.Some? && revision.value != task.revision)
         || RunStage(d, task.board).None? then Refuse
      else Go(task.owner.value, RunStage(d, task.board).value)
  }

  /** The rows `start` writes for the run it created. */
  function LinkRun(d: Desk, t: TaskId, key: nat, run: RunId, stage: StageId): Desk
    requires t in d.tasks
  {
    var task := d.tasks[t];
    d.(links := d.links[run := Link(t, MaxOf(Attempts(d.links, t)) + 1, key)],
       tasks := d.tasks[t := task.(stage := stage, activeRun := Some(run), revision := task.revision + 1)])
  }

  // ----- editing tasks -----

  /** The fields of a task request that are present. */
  datatype Patch = Patch(
    revision: nat, board: Option<BoardId>, stage: Option<StageId>, team: Option<Option<TeamId>>,
    owner: Option<Option<AgentId>>, collaborators: Option<set<AgentId>>, archived: Option<bool>, position: Option<real>)

  function Or<T>(value: Option<T>, otherwise: T): T {
    if value.Some? then value.value else otherwise
  }

  function Patched(task: Task, p: Patch): Task {
    task.(board := Or(p.board, task.board), stage := Or(p.stage, task.stage), team := Or(p.team, task.team),
          owner := Or(p.owner, task.owner), collaborators := Or(p.collaborators, task.collaborators),
          archived := Or(p.archived, task.archived), position := Or(p.position, task.position),
          revision := task.revision + 1)
  }

  predicate SameLockedFields(a: Task, b: Task) {
    a.board == b.board && a.team == b.team && a.owner == b.owner
    && a.collaborators == b.collaborators && a.archived == b.archived
  }

  function UpdateTask(runs: seq<Run>, d: Desk, t: TaskId, p: Patch): Desk {
    if t !in d.tasks || p.revision != d.tasks[t].revision then d
    else
      var task, next := d.tasks[t], Patched(d.tasks[t], p);
      if Locked(runs, task) && !(SameLockedFields(task, next) && task.stage == next.stage) then d
      else if next.board !in d.boards || next.stage !in BoardStages(d, next.board) then d
      else SetTask(d, t, next)
  }

  function StageTasks(d: Desk, st: StageId): set<TaskId> {
    set t | t in d.tasks && d.tasks[t].stage == st
  }

  /** The cards a stage shows: its tasks that are not archived. */
  function VisibleTasks(d: Desk, st: StageId): set<TaskId> {
    set t | t in d.tasks && d.tasks[t].stage == st && !d.tasks[t].archived
  }

  function TaskPositions(d: Desk): map<nat, real> {
    map t | t in d.tasks :: d.tasks[t].position
  }

  function WithPositions(tasks: map<TaskId, Task>, pos: map<nat, real>): map<TaskId, Task>
    requires tasks.Keys <= pos.Keys
  {
    map t | t in tasks :: tasks[t].(position := pos[t])
  }

  predicate CanMove(runs: seq<Run>, d: Desk, t: TaskId, stage: StageId) {
    t in d.tasks && !Locked(runs, d.tasks[t]) && stage in BoardStages(d, d.tasks[t].board)
  }

  /** The other visible cards of the target stage, in order. */
  function Siblings(d: Desk, t: TaskId, stage: StageId): seq<TaskId> {
    Ordered(VisibleTasks(d, stage) - {t}, TaskPositions(d))
  }

  function PlaceOf(siblings: seq<TaskId>, before: Option<TaskId>): int {
    if before.Some? then IndexOf(siblings, before.value) else -1
  }

  /** The position the moved card gets. */
  function DropPosition(d: Desk, t: TaskId, stage: StageId, before: Option<TaskId>): real
    requires t in d.tasks
  {
    var siblings := Siblings(d, t, stage);
    NextPosition(siblings, TaskPositions(d), PlaceOf(siblings, before))
  }

  /** `move` before the renumbering check: stage, owner and position are written. */
  function Dropped(d: Desk, t: TaskId, stage: StageId, before: Option<TaskId>, owner: Option<Option<AgentId>>): Desk
    requires t in d.tasks
  {
    var task := d.tasks[t];
    SetTask(d, t, task.(stage := stage, owner := Or(owner, task.owner), position := DropPosition(d, t, stage, before),
                        revision := task.revision + 1))
  }

  function MoveTask(runs: seq<Run>, d: Desk, t: TaskId, stage: StageId, before: Option<TaskId>,
                    owner: Option<Option<AgentId>>): Desk
  {
    if !CanMove(runs, d, t, stage) then d
    else
      var dropped := Dropped(d, t, stage, before, owner);
      dropped.(tasks := WithPositions(dropped.tasks, Settle(StageTasks(dropped, stage), TaskPositions(dropped))))
  }

  /** A move rewrites the moved card and at most the positions of others. */
  lemma MovedTasks(runs: seq<Run>, d: Desk, t: TaskId, stage: StageId, before: Option<TaskId>, owner: Option<Option<AgentId>>)
    requires CanMove(runs, d, t, stage)
    ensures var d' := MoveTask(runs, d, t, stage, before, owner);
            && d' == d.(tasks := d'.tasks) && d'.tasks.Keys == d.tasks.Keys
            && (forall x | x in d.tasks && x != t :: d'.tasks[x] == d.tasks[x].(position := d'.tasks[x].position))
            && d'.tasks[t] == d.tasks[t].(stage := stage, owner := Or(owner, d.tasks[t].owner),
                                          revision := d.tasks[t].revision + 1, position := d'.tasks[t].position)
  {
    var dropped := Dropped(d, t, stage, before, owner);
    assert dropped.tasks.Keys == d.tasks.Keys;
    PositionsOnly(dropped.tasks, Settle(StageTasks(dropped, stage), TaskPositions(dropped)));
  }

  lemma PositionsOnly(tasks: map<TaskId, Task>, pos: map<nat, real>)
    requires tasks.Keys <= pos.Keys
    ensures WithPositions(tasks, pos).Keys == tasks.Keys
    ensures forall x | x in tasks :: WithPositions(tasks, pos)[x] == tasks[x].(position := pos[x])
  {}

  function Approve(d: Desk, t: TaskId, revision: Option<nat>): Desk {
    if t !in d.tasks || (revision.Some? && revision.value != d.tasks[t].revision) || d.tasks[t].activeRun.Some? then d
    else
      var done := FirstOf(d, d.tasks[t].board, Done);
      if done.None? then d
      else SetTask(d, t, d.tasks[t].(stage := done.value, revision := d.tasks[t].revision + 1))
  }

  /** `COALESCE(MAX(position),-1)+1` over the stage's tasks, archived ones included. */
  function EndOfStage(d: Desk, st: StageId): real {
    var all := StageTasks(d, st);
    if all == {} then 0.0 else d.tasks[Last(Ordered(all, TaskPositions(d)))].position + 1.0
  }

  function Last(s: seq<nat>): nat
    requires s != []
  {
    s[|s| - 1]
  }

  /** `createTask` with the new identifier `t`; without a stage the first backlog stage is used. */
  function CreateTask(d: Desk, t: TaskId, p: Patch): Desk {
    if t in d.tasks || p.board.None? || p.board.value !in d.boards then d
    else
      var stage := if p.stage.Some? then p.stage else FirstOf(d, p.board.value, Backlog);
      if stage.None? || stage.value !in BoardStages(d, p.board.value) then d
      else SetTask(d, t, Task(p.board.value, stage.value, Or(p.team, None),
                              Or(p.owner, d.boards[p.board.value].defaultOwner), Or(p.collaborators, {}),
                              EndOfStage(d, stage.value), false, 1, None))
  }

  function RemoveTasks(d: Desk, gone: set<TaskId>): Desk {
    d.(tasks := map t | t in d.tasks && t !in gone :: d.tasks[t],
       links := map r | r in d.links && d.links[r].task !in gone :: d.links[r])
  }

  function DeleteTask(d: Desk, t: TaskId): Desk {
    if t !in d.tasks || d.tasks[t].activeRun.Some? then d else RemoveTasks(d, {t})
  }

  // ----- boards and stages -----

  /** `createBoard`: five stages, numbered from `base`, one per category. */
  function CreateBoard(d: Desk, b: BoardId, base: StageId, defaultOwner: Option<AgentId>): Desk {
    if b in d.boards || exists st | st in d.stages :: base <= st then d
    else d.(boards := d.boards[b := Board(false, 1, None, None, defaultOwner)],
            stages := d.stages[base := Stage(b, Backlog, 0.0)][base + 1 := Stage(b, Ready, 1.0)]
                      [base + 2 := Stage(b, InProgress, 2.0)][base + 3 := Stage(b, Review, 3.0)]
                      [base + 4 := Stage(b, Done, 4.0)])
  }

  function BoardTasks(d: Desk, b: BoardId): set<TaskId> {
    set t | t in d.tasks && d.tasks[t].board == b
  }

  function UpdateBoard(d: Desk, b: BoardId, revision: nat, archived: Option<bool>, runStage: Option<Option<StageId>>,
                       doneStage: Option<Option<StageId>>, defaultOwner: Option<Option<AgentId>>): Desk {
    if b !in d.boards || revision != d.boards[b].revision then d
    else
      var archive := Or(archived, d.boards[b].archived);
      if archive && exists t | t in BoardTasks(d, b) :: d.tasks[t].activeRun.Some? then d
      else
        var runs := Setting(d, b, Or(runStage, RunStage(d, b)), InProgress);
        var done := Setting(d, b, Or(doneStage, DoneStage(d, b)), Review);
        d.(boards := d.boards[b := Board(archive, revision + 1, runs, done, Or(defaultOwner, d.boards[b].defaultOwner))])
  }

  function DeleteBoard(runs: seq<Run>, d: Desk, b: BoardId): Desk {
    if b !in d.boards || !(exists other | other in d.boards :: other != b && !d.boards[other].archived)
       || (exists t | t in BoardTasks(d, b) :: Locked(runs, d.tasks[t])) then d
    else
      var rest := RemoveTasks(d, BoardTasks(d, b));
      rest.(stages := map st | st in d.stages && d.stages[st].board != b :: d.stages[st], boards := d.boards - {b})
  }

  function AddStage(d: Desk, b: BoardId, st: StageId, category: Category): Desk {
    if b !in d.boards || st in d.stages then d
    else
      var all := BoardStages(d, b);
      var position := if all == {} then 0.0 else d.stages[Last(Ordered(all, StagePositions(d)))].position + 1.0;
      d.(stages := d.stages[st := Stage(b, category, position)])
  }

  function UpdateStage(d: Desk, st: StageId, category: Option<Category>, position: Option<real>): Desk {
    if st !in d.stages then d
    else d.(stages := d.stages[st := d.stages[st].(category := Or(category, d.stages[st].category),
                                                   position := Or(position, d.stages[st].position))])
  }

  function Relocate(d: Desk, from: StageId, to: StageId): Desk {
    d.(tasks := map t | t in d.tasks ::
         if d.tasks[t].stage == from then d.tasks[t].(stage := to, revision := d.tasks[t].revision + 1) else d.tasks[t])
  }

  predicate CanRemoveStage(d: Desk, st: StageId, to: Option<StageId>) {
    && st in d.stages
    && (StageTasks(d, st) != {} ==> to.Some?)
    && (d.stages[st].category in {InProgress, Review, Done} ==>
          StagesOf(d, d.stages[st].board, d.stages[st].category) != {st})
    && (to.Some? ==> to.value in BoardStages(d, d.stages[st].board))
  }

  /** `removeStage`. Moving a stage's cards to the stage itself touches the cards, and the deletion
      is then stopped by the foreign key. */
  function RemoveStage(d: Desk, st: StageId, to: Option<StageId>): Desk {
    if !CanRemoveStage(d, st, to) then d
    else
      var b, moved := d.stages[st].board, if to.Some? then Relocate(d, st, to.value) else d;
      if StageTasks(moved, st) != {} || b !in d.boards then moved
      else
        var rest := moved.(stages := moved.stages - {st});
        rest.(boards := rest.boards[b := rest.boards[b].(runStage := RunStage(rest, b), doneStage := DoneStage(rest, b),
                                                         revision := rest.boards[b].revision + 1)])
  }

  // ----- teams -----

  predicate BlocksRemoval(task: Task, team: TeamId, agent: AgentId) {
    task.team == Some(team) && !task.archived && (task.owner == Some(agent) || agent in task.collaborators)
  }

  predicate MayLeave(d: Desk, team: TeamId, agent: AgentId) {
    forall t | t in d.tasks :: !BlocksRemoval(d.tasks[t], team, agent)
  }

  /** The active teams whose name the validation takes for this one. */
  function ActiveNamed(d: Desk, name: Name): set<TeamId> {
    set t | t in d.teams && !d.teams[t].retired && d.teams[t].name.folded == name.folded
  }

  /** The active teams whose name an import takes for this one. */
  function ActiveAlike(d: Desk, name: Name): set<TeamId> {
    set t | t in d.teams && !d.teams[t].retired && d.teams[t].name.letters == name.letters
  }

  /** `update`: the name must be free among the other active teams, and members may leave only when no
      current task of the team needs them. */
  function UpdateTeam(d: Desk, team: TeamId, revision: nat, name: Name, members: set<AgentId>): Desk {
    if team !in d.teams || d.teams[team].retired || d.teams[team].revision != revision then d
    else if ActiveNamed(d, name) - {team} != {} then d
    else if exists a | a in d.teams[team].members :: a !in members && !MayLeave(d, team, a) then d
    else d.(teams := d.teams[team := Team(name, revision + 1, false, members)])
  }

  function CreateTeam(d: Desk, team: TeamId, name: Name, members: set<AgentId>): Desk {
    if team in d.teams || ActiveNamed(d, name) != {} then d
    else d.(teams := d.teams[team := Team(name, 1, false, members)])
  }

  function NameOrder(d: Desk): map<nat, real> {
    map t | t in d.teams :: d.teams[t].name.folded as real
  }

  /** The first active team an import takes for this name, in the order of the listing. */
  function TeamNamed(d: Desk, name: Name): Option<TeamId> {
    var found := ActiveAlike(d, name);
    if found == {} then None else Some(Least(found, NameOrder(d)))
  }

  /** `import`: an active team found by its identifier, or else by its name, is updated at its own
      revision; otherwise one is created, under the given identifier or a new one. */
  function ImportTeam(d: Desk, id: Option<TeamId>, name: Name, members: set<AgentId>, newId: TeamId): Desk {
    if id.Some? && id.value in d.teams && !d.teams[id.value].retired then
      UpdateTeam(d, id.value, d.teams[id.value].revision, name, members)
    else
      var named := TeamNamed(d, name);
      if named.Some? then UpdateTeam(d, named.value, d.teams[named.value].revision, name, members)
      else CreateTeam(d, Or(id, newId), name, members)
  }

  function RetireTeam(d: Desk, team: TeamId): Desk {
    if team !in d.teams || d.teams[team].retired
       || exists t | t in d.tasks :: d.tasks[t].team == Some(team) && !d.tasks[t].archived then d
    else d.(teams := d.teams[team := Team(d.teams[team].name, d.teams[team].revision + 1, true, {})])
  }

  predicate IsMember(d: Desk, team: TeamId, agent: AgentId) {
    team in d.teams && !d.teams[team].retired && agent in d.teams[team].members
  }

  /** `validateAssignment`; the owner is dropped from the collaborators. */
  predicate AssignmentAllowed(d: Desk, team: Option<TeamId>, owner: Option<AgentId>, collaborators: set<AgentId>, legacy: bool) {
    var others := if owner.Some? then collaborators - {owner.value} else collaborators;
    if team.None? then others == {} || legacy
    else
      && team.value in d.teams && !d.teams[team.value].retired
      && (owner.Some? ==> owner.value in d.teams[team.value].members)
      && others <= d.teams[team.value].members
  }

  /** `validTaskMutation`: the request with team, owner and collaborators filled in, or nothing. */
  function ValidMutation(d: Desk, p: Patch, current: Option<Task>): Option<Patch> {
    var team := Or(p.team, if current.Some? then current.value.team else None);
    var owner := if p.owner.Some? then p.owner.value
                 else if current.Some? then current.value.owner
                 else if p.board.Some? && p.board.value in d.boards then d.boards[p.board.value].defaultOwner
                 else None;
    var collaborators := Or(p.collaborators, if current.Some? then current.value.collaborators else {});
    var legacy := current.Some? && current.value.team.None? && team.None? && p.collaborators.None?;
    if !AssignmentAllowed(d, team, owner, collaborators, legacy) then None
    else
      var others := if owner.Some? then collaborators - {owner.value} else collaborators;
      Some(p.(team := Some(team), owner := Some(owner), collaborators := Some(others)))
  }
}
