/** All board and team operations as steps, and what every one of them keeps. */
module DeskSteps {
  import opened Rows
  import opened Desk
  import opened Links
  import opened Teams
  import opened Boards

  /** `seen` is the version of the task a request had read before it was validated. */
  datatype DeskStep =
    | TaskEdit(task: TaskId, patch: Patch, seen: Option<Task>)
    | TaskCreate(task: TaskId, patch: Patch)
    | TaskMove(task: TaskId, stage: StageId, before: Option<TaskId>, owner: Option<Option<AgentId>>)
    | TaskApprove(task: TaskId, revision: Option<nat>)
    | TaskDelete(task: TaskId)
    | BoardCreate(board: BoardId, base: StageId, defaultOwner: Option<AgentId>)
    | BoardUpdate(board: BoardId, boardRevision: nat, archived: Option<bool>, runStage: Option<Option<StageId>>,
                  doneStage: Option<Option<StageId>>, newOwner: Option<Option<AgentId>>)
    | BoardDelete(board: BoardId)
    | BoardDuplicate(board: BoardId, target: BoardId, base: StageId, taskBase: TaskId, withTasks: bool,
                     newOwner: Option<Option<AgentId>>)
    | StageAdd(board: BoardId, stage: StageId, category: Category)
    | StageUpdate(stage: StageId, newCategory: Option<Category>, position: Option<real>)
    | StageRemove(stage: StageId, to: Option<StageId>)
    | TeamCreate(team: TeamId, name: Name, members: set<AgentId>)
    | TeamUpdate(team: TeamId, teamRevision: nat, name: Name, members: set<AgentId>)
    | TeamImport(id: Option<TeamId>, name: Name, members: set<AgentId>, freshTeam: TeamId)
    | TeamRetire(team: TeamId)

  function ApplyDesk(runs: seq<Run>, d: Desk, e: DeskStep): Desk {
    match e
    case TaskEdit(t, p, seen) =>
      var valid := ValidMutation(d, p, seen);
      if valid.Some? then UpdateTask(runs, d, t, valid.value) else d
    case TaskCreate(t, p) =>
      var valid := ValidMutation(d, p, None);
      if valid.Some? then CreateTask(d, t, valid.value) else d
    case TaskMove(t, stage, before, owner) => MoveTask(runs, d, t, stage, before, owner)
    case TaskApprove(t, revision) => Approve(d, t, revision)
    case TaskDelete(t) => DeleteTask(d, t)
    case BoardCreate(b, base, owner) => CreateBoard(d, b, base, owner)
    case BoardUpdate(b, revision, archived, run, done, owner) => UpdateBoard(d, b, revision, archived, run, done, owner)
    case BoardDelete(b) => DeleteBoard(runs, d, b)
    case BoardDuplicate(b, target, base, taskBase, withTasks, owner) =>
      DuplicateBoard(d, b, target, base, taskBase, withTasks, owner)
    case StageAdd(b, st, category) => AddStage(d, b, st, category)
    case StageUpdate(st, category, position) => UpdateStage(d, st, category, position)
    case StageRemove(st, to) => RemoveStage(d, st, to)
    case TeamCreate(team, name, members) => CreateTeam(d, team, name, members)
    case TeamUpdate(team, revision, name, members) => UpdateTeam(d, team, revision, name, members)
    case TeamImport(id, name, members, newId) => ImportTeam(d, id, name, members, newId)
    case TeamRetire(team) => RetireTeam(d, team)
  }

  predicate Deletes(e: DeskStep) { e.TaskDelete? || e.BoardDelete? }

  /** A move must write an owner the task's team has. */
  predicate DeskStepFits(d: Desk, e: DeskStep) {
    e.TaskMove? && e.task in d.tasks ==> MoveStaysInTeam(d, e.task, e.owner)
  }

  // ----- tasks and runs -----

  lemma DuplicateKeepsLocked(runs: seq<Run>, d: Desk, b: BoardId, target: BoardId, base: StageId, taskBase: TaskId,
                             withTasks: bool, owner: Option<Option<AgentId>>)
    ensures KeepsLocked(runs, d, DuplicateBoard(d, b, target, base, taskBase, withTasks, owner))
  {
    DuplicateKeepsTasks(d, b, target, base, taskBase, withTasks, owner);
  }

  predicate EditsTasks(e: DeskStep) {
    e.TaskEdit? || e.TaskCreate? || e.TaskMove? || e.TaskApprove? || e.BoardDuplicate? || e.StageRemove?
  }

  lemma TaskStepsKeepLocked(runs: seq<Run>, d: Desk, e: DeskStep)
    requires EditsTasks(e)
    ensures KeepsLocked(runs, d, ApplyDesk(runs, d, e))
  {
    match e
    case TaskEdit(t, p, seen) =>
      var valid := ValidMutation(d, p, seen);
      if valid.Some? { UpdateKeepsLocked(runs, d, t, valid.value); }
    case TaskCreate(t, p) =>
      var valid := ValidMutation(d, p, None);
      if valid.Some? { CreateKeepsLocked(runs, d, t, valid.value); }
    case TaskMove(t, stage, before, owner) => MoveKeepsLocked(runs, d, t, stage, before, owner);
    case TaskApprove(t, revision) => ApproveKeepsLocked(runs, d, t, revision);
    case BoardDuplicate(b, target, base, taskBase, withTasks, owner) =>
      DuplicateKeepsLocked(runs, d, b, target, base, taskBase, withTasks, owner);
    case StageRemove(st, to) => RemoveStageKeepsLocked(runs, d, st, to);
    case _ =>
  }

  lemma BoardEditsKeepTasks(runs: seq<Run>, d: Desk, e: DeskStep)
    requires e.BoardCreate? || e.BoardUpdate?
    ensures ApplyDesk(runs, d, e).tasks == d.tasks && ApplyDesk(runs, d, e).links == d.links
  {}

  lemma StageEditsKeepTasks(runs: seq<Run>, d: Desk, e: DeskStep)
    requires e.StageAdd? || e.StageUpdate?
    ensures ApplyDesk(runs, d, e).tasks == d.tasks && ApplyDesk(runs, d, e).links == d.links
  {}

  lemma OtherStepsKeepTasks(runs: seq<Run>, d: Desk, e: DeskStep)
    requires !EditsTasks(e) && !Deletes(e)
    ensures ApplyDesk(runs, d, e).tasks == d.tasks && ApplyDesk(runs, d, e).links == d.links
  {
    if EditsTeams(e) {
      TeamStepsKeepBoards(runs, d, e);
    } else if e.BoardCreate? || e.BoardUpdate? {
      BoardEditsKeepTasks(runs, d, e);
    } else {
      StageEditsKeepTasks(runs, d, e);
    }
  }

  /** No step but a deletion touches a link or what a running task locks. */
  lemma StepsKeepLocked(runs: seq<Run>, d: Desk, e: DeskStep)
    requires !Deletes(e)
    ensures KeepsLocked(runs, d, ApplyDesk(runs, d, e))
  {
    if EditsTasks(e) {
      TaskStepsKeepLocked(runs, d, e);
    } else {
      OtherStepsKeepTasks(runs, d, e);
      PlainStageEditsKeepLocked(runs, d, ApplyDesk(runs, d, e));
    }
  }

  ghost function NoPatch(): Patch { Patch(0, None, None, None, None, None, None, None) }

  lemma StepsKeepLinks(runs: seq<Run>, d: Desk, e: DeskStep)
    requires LinkInv(runs, d) && Numbered(d.links)
    ensures var d' := ApplyDesk(runs, d, e);
            && LinkInv(runs, d') && Numbered(d'.links)
            && (forall r | r in d'.links :: r in d.links && d'.links[r] == d.links[r])
            && (forall r | r in d.links && r !in d'.links :: d.links[r].task !in d'.tasks)
  {
    if Deletes(e) {
      var gone := if e.TaskDelete? then {e.task} else BoardTasks(d, e.board);
      DeletionKeepsLinkInv(runs, d, gone);
      DeletionKeepsNumbering(d, gone);
    } else {
      StepsKeepLocked(runs, d, e);
      KeepsLockedKeepsLinkInv(runs, d, ApplyDesk(runs, d, e));
    }
  }

  // ----- boards -----

  lemma TaskStepsKeepBoardInv(runs: seq<Run>, d: Desk, e: DeskStep)
    requires BoardInv(d) && (e.TaskEdit? || e.TaskCreate? || e.TaskMove? || e.TaskApprove? || e.TaskDelete?)
    ensures BoardInv(ApplyDesk(runs, d, e))
  {
    match e
    case TaskEdit(t, p, seen) =>
      var valid := ValidMutation(d, p, seen);
      if valid.Some? { TaskEditsKeepBoardInv(runs, d, t, valid.value, None); }
    case TaskCreate(t, p) =>
      var valid := ValidMutation(d, p, None);
      if valid.Some? { TaskEditsKeepBoardInv(runs, d, t, valid.value, None); }
    case TaskMove(t, stage, before, owner) => MoveKeepsBoardInv(runs, d, t, stage, before, owner);
    case TaskApprove(t, revision) => TaskEditsKeepBoardInv(runs, d, t, NoPatch(), revision);
    case TaskDelete(t) => RemovalKeepsBoardInv(d, {t});
  }

  predicate EditsTeams(e: DeskStep) { e.TeamCreate? || e.TeamUpdate? || e.TeamImport? || e.TeamRetire? }

  lemma BoardStepsKeepBoardInv(runs: seq<Run>, d: Desk, e: DeskStep)
    requires BoardInv(d) && !EditsTeams(e)
    requires !e.TaskEdit? && !e.TaskCreate? && !e.TaskMove? && !e.TaskApprove? && !e.TaskDelete?
    ensures BoardInv(ApplyDesk(runs, d, e))
  {
    match e
    case BoardCreate(b, base, owner) => CreateBoardKeepsBoardInv(d, b, base, owner);
    case BoardUpdate(b, revision, archived, run, done, owner) =>
      BoardEditsKeepBoardInv(runs, d, b, revision, archived, run, done, owner);
    case BoardDelete(b) => BoardEditsKeepBoardInv(runs, d, b, 0, None, None, None, None);
    case BoardDuplicate(b, target, base, taskBase, withTasks, owner) =>
      DuplicateKeepsBoardInv(d, b, target, base, taskBase, withTasks, owner);
    case StageAdd(b, st, category) => StageEditsKeepBoardInv(d, b, st, category, None, None);
    case StageUpdate(st, category, position) => StageEditsKeepBoardInv(d, 0, st, Backlog, category, position);
    case StageRemove(st, to) => RemoveStageLosesNothing(d, st, to);
  }

  ghost predicate TeamsOnly(d: Desk, d': Desk) { d' == d.(teams := d'.teams) }

  lemma TeamEditsTouchTeams(d: Desk, team: TeamId, revision: nat, name: Name, members: set<AgentId>)
    ensures TeamsOnly(d, UpdateTeam(d, team, revision, name, members))
    ensures TeamsOnly(d, CreateTeam(d, team, name, members)) && TeamsOnly(d, RetireTeam(d, team))
  {}

  lemma ImportTouchesTeams(d: Desk, id: Option<TeamId>, name: Name, members: set<AgentId>, newId: TeamId)
    ensures TeamsOnly(d, ImportTeam(d, id, name, members, newId))
  {
    var named := TeamNamed(d, name);
    if id.Some? && id.value in d.teams { TeamEditsTouchTeams(d, id.value, d.teams[id.value].revision, name, members); }
    if named.Some? { TeamEditsTouchTeams(d, named.value, d.teams[named.value].revision, name, members); }
    TeamEditsTouchTeams(d, Or(id, newId), 0, name, members);
  }

  lemma TeamStepsKeepBoards(runs: seq<Run>, d: Desk, e: DeskStep)
    requires EditsTeams(e)
    ensures TeamsOnly(d, ApplyDesk(runs, d, e))
  {
    match e
    case TeamCreate(team, name, members) => TeamEditsTouchTeams(d, team, 0, name, members);
    case TeamUpdate(team, revision, name, members) => TeamEditsTouchTeams(d, team, revision, name, members);
    case TeamImport(id, name, members, newId) => ImportTouchesTeams(d, id, name, members, newId);
    case TeamRetire(team) => TeamEditsTouchTeams(d, team, 0, Name(0, 0), {});
  }

  lemma TeamsDoNotMatter(d: Desk, teams: map<TeamId, Team>)
    requires BoardInv(d)
    ensures BoardInv(d.(teams := teams))
  {}

  lemma StepsKeepBoardInv(runs: seq<Run>, d: Desk, e: DeskStep)
    requires BoardInv(d)
    ensures BoardInv(ApplyDesk(runs, d, e))
  {
    if EditsTeams(e) {
      TeamStepsKeepBoards(runs, d, e);
      TeamsDoNotMatter(d, ApplyDesk(runs, d, e).teams);
    } else if e.TaskEdit? || e.TaskCreate? || e.TaskMove? || e.TaskApprove? || e.TaskDelete? {
      TaskStepsKeepBoardInv(runs, d, e);
    } else {
      BoardStepsKeepBoardInv(runs, d, e);
    }
  }

  // ----- teams -----

  ghost predicate SameAssignment(a: Task, b: Task) {
    a.team == b.team && a.owner == b.owner && a.collaborators == b.collaborators && a.archived == b.archived
  }

  ghost predicate AssignmentsKept(d: Desk, d': Desk) {
    && d'.teams == d.teams
    && forall t | t in d'.tasks :: exists q | q in d.tasks :: SameAssignment(d'.tasks[t], d.tasks[q])
  }

  lemma KeptAssignmentsKeepTeamInv(d: Desk, d': Desk)
    requires TeamInv(d) && AssignmentsKept(d, d')
    ensures TeamInv(d')
  {
    forall t | t in d'.tasks ensures InTeam(d', d'.tasks[t]) {
      var q :| q in d.tasks && SameAssignment(d'.tasks[t], d.tasks[q]);
      assert InTeam(d, d.tasks[q]);
    }
  }

  lemma OwnAssignmentsKept(d: Desk, d': Desk)
    requires d'.teams == d.teams
    requires forall t | t in d'.tasks :: t in d.tasks && SameAssignment(d'.tasks[t], d.tasks[t])
    ensures AssignmentsKept(d, d')
  {}

  lemma DuplicateKeepsAssignments(d: Desk, b: BoardId, target: BoardId, base: StageId, taskBase: TaskId,
                                  withTasks: bool, owner: Option<Option<AgentId>>)
    ensures AssignmentsKept(d, DuplicateBoard(d, b, target, base, taskBase, withTasks, owner))
  {
    DuplicateKeepsTasks(d, b, target, base, taskBase, withTasks, owner);
    CopiesKeepAssignments(d, DuplicateBoard(d, b, target, base, taskBase, withTasks, owner));
  }

  lemma CopiesKeepAssignments(d: Desk, d': Desk)
    requires d'.teams == d.teams
    requires forall t | t in d'.tasks :: if t in d.tasks then d'.tasks[t] == d.tasks[t] else HasOriginal(d, d'.tasks[t])
    ensures AssignmentsKept(d, d')
  {
    forall t | t in d'.tasks ensures exists q | q in d.tasks :: SameAssignment(d'.tasks[t], d.tasks[q]) {
      if t in d.tasks {
        assert SameAssignment(d'.tasks[t], d.tasks[t]);
      } else {
        var q :| q in d.tasks && IsCopy(d'.tasks[t], d.tasks[q]);
        assert SameAssignment(d'.tasks[t], d.tasks[q]);
      }
    }
  }

  lemma RemoveStageKeepsAssignments(d: Desk, st: StageId, to: Option<StageId>)
    ensures AssignmentsKept(d, RemoveStage(d, st, to))
  {
    OwnAssignmentsKept(d, RemoveStage(d, st, to));
  }

  lemma PlainStepsKeepAssignments(runs: seq<Run>, d: Desk, e: DeskStep)
    requires e.TaskApprove? || e.TaskDelete? || e.BoardCreate? || e.BoardUpdate? || e.BoardDelete? || e.StageAdd? || e.StageUpdate?
    ensures AssignmentsKept(d, ApplyDesk(runs, d, e))
  {
    OwnAssignmentsKept(d, ApplyDesk(runs, d, e));
  }

  lemma StepsKeepTeamInv(runs: seq<Run>, d: Desk, e: DeskStep)
    requires TeamInv(d) && DeskStepFits(d, e)
    ensures TeamInv(ApplyDesk(runs, d, e))
  {
    match e
    case TaskEdit(t, p, seen) =>
      if ValidMutation(d, p, seen).Some? { ValidatedEditsKeepTeamInv(runs, d, t, p, seen); }
    case TaskCreate(t, p) =>
      if ValidMutation(d, p, None).Some? { ValidatedEditsKeepTeamInv(runs, d, t, p, None); }
    case TaskMove(t, stage, before, owner) =>
      if CanMove(runs, d, t, stage) { MoveKeepsTeamInvIff(runs, d, t, stage, before, owner); }
    case BoardDuplicate(b, target, base, taskBase, withTasks, owner) =>
      DuplicateKeepsAssignments(d, b, target, base, taskBase, withTasks, owner);
      KeptAssignmentsKeepTeamInv(d, ApplyDesk(runs, d, e));
    case StageRemove(st, to) =>
      RemoveStageKeepsAssignments(d, st, to);
      KeptAssignmentsKeepTeamInv(d, ApplyDesk(runs, d, e));
    case TeamCreate(team, name, members) => TeamEditsKeepTeamInv(d, team, 0, name, members);
    case TeamUpdate(team, revision, name, members) => TeamEditsKeepTeamInv(d, team, revision, name, members);
    case TeamImport(id, name, members, newId) => ImportKeepsTeamInv(d, id, name, members, newId);
    case TeamRetire(team) => TeamEditsKeepTeamInv(d, team, 0, Name(0, 0), {});
    case _ =>
      PlainStepsKeepAssignments(runs, d, e);
      KeptAssignmentsKeepTeamInv(d, ApplyDesk(runs, d, e));
  }

  lemma TeamStepsKeepNames(runs: seq<Run>, d: Desk, e: DeskStep)
    requires UniqueNames(d.teams) && EditsTeams(e)
    ensures UniqueNames(ApplyDesk(runs, d, e).teams)
  {
    match e
    case TeamCreate(team, name, members) => TeamEditsKeepNames(d, team, 0, name, members);
    case TeamUpdate(team, revision, name, members) => TeamEditsKeepNames(d, team, revision, name, members);
    case TeamImport(id, name, members, newId) => ImportKeepsNames(d, id, name, members, newId);
    case TeamRetire(team) => TeamEditsKeepNames(d, team, 0, Name(0, 0), {});
  }

  /** No board operation makes two active teams share a name. */
  lemma StepsKeepNames(runs: seq<Run>, d: Desk, e: DeskStep)
    requires UniqueNames(d.teams)
    ensures UniqueNames(ApplyDesk(runs, d, e).teams)
  {
    if EditsTeams(e) { TeamStepsKeepNames(runs, d, e); } else { OtherStepsKeepTeams(runs, d, e); }
  }

  lemma TaskEditsKeepTeams(runs: seq<Run>, d: Desk, e: DeskStep)
    requires e.TaskEdit? || e.TaskCreate? || e.TaskMove? || e.TaskApprove? || e.TaskDelete?
    ensures ApplyDesk(runs, d, e).teams == d.teams
  {}

  lemma BoardEditsKeepTeams(runs: seq<Run>, d: Desk, e: DeskStep)
    requires e.BoardCreate? || e.BoardUpdate? || e.BoardDelete? || e.BoardDuplicate?
    ensures ApplyDesk(runs, d, e).teams == d.teams
  {}

  lemma StageEditsKeepTeams(runs: seq<Run>, d: Desk, e: DeskStep)
    requires e.StageAdd? || e.StageUpdate? || e.StageRemove?
    ensures ApplyDesk(runs, d, e).teams == d.teams
  {}

  lemma OtherStepsKeepTeams(runs: seq<Run>, d: Desk, e: DeskStep)
    requires !EditsTeams(e)
    ensures ApplyDesk(runs, d, e).teams == d.teams
  {
    match e {
      case StageAdd(_, _, _) => StageEditsKeepTeams(runs, d, e);
      case StageUpdate(_, _, _) => StageEditsKeepTeams(runs, d, e);
      case StageRemove(_, _) => StageEditsKeepTeams(runs, d, e);
      case BoardCreate(_, _, _) => BoardEditsKeepTeams(runs, d, e);
      case BoardUpdate(_, _, _, _, _, _) => BoardEditsKeepTeams(runs, d, e);
      case BoardDelete(_) => BoardEditsKeepTeams(runs, d, e);
      case BoardDuplicate(_, _, _, _, _, _) => BoardEditsKeepTeams(runs, d, e);
      case _ => TaskEditsKeepTeams(runs, d, e);
    }
  }
}
