/** Team membership across the two stores: current team tasks stay inside their team. */
module Teams {
  import opened Rows
  import opened Desk

  ghost predicate InTeam(d: Desk, t: Task) {
    t.archived || t.team.None? ||
    var team := t.team.value;
    && (t.owner.Some? ==> IsMember(d, team, t.owner.value))
    && (forall a | a in t.collaborators :: IsMember(d, team, a))
    && team in d.teams && !d.teams[team].retired
  }

  /** Every task that is not archived and has a team is owned and helped by current members of it. */
  ghost predicate TeamInv(d: Desk) {
    forall t | t in d.tasks :: InTeam(d, d.tasks[t])
  }

  /** Creation and every edit (also claim, release, archive and restore) pass through the validation,
      whatever version of the task the request had read before: what is written was valid when it
      was written. `seen` is that version. */
  lemma ValidatedEditsKeepTeamInv(runs: seq<Run>, d: Desk, t: TaskId, p: Patch, seen: Option<Task>)
    requires TeamInv(d) && ValidMutation(d, p, seen).Some?
    ensures TeamInv(UpdateTask(runs, d, t, ValidMutation(d, p, seen).value))
    ensures seen.None? ==> TeamInv(CreateTask(d, t, ValidMutation(d, p, seen).value))
  {
    var q := ValidMutation(d, p, seen).value;
    var edited, created := UpdateTask(runs, d, t, q), CreateTask(d, t, q);
    forall x | x in edited.tasks ensures InTeam(edited, edited.tasks[x]) {
      if edited.tasks[x] == d.tasks[x] { assert InTeam(d, d.tasks[x]); }
    }
    forall x | x in created.tasks ensures InTeam(created, created.tasks[x]) {
      if x in d.tasks { assert InTeam(d, d.tasks[x]); }
    }
  }

  /** The owner a move would write belongs to the team the task has now. */
  predicate MoveStaysInTeam(d: Desk, t: TaskId, owner: Option<Option<AgentId>>)
    requires t in d.tasks
  {
    var task := d.tasks[t];
    task.archived || task.team.None? || owner.None? || owner.value.None? || IsMember(d, task.team.value, owner.value.value)
  }

  /** A move checks the owner against the team named in the request, or the team the request had
      read, and writes no team: it keeps the tasks in their teams exactly when the owner it writes is
      a member of the team the task has. */
  lemma MoveKeepsTeamInvIff(runs: seq<Run>, d: Desk, t: TaskId, stage: StageId, before: Option<TaskId>,
                            owner: Option<Option<AgentId>>)
    requires TeamInv(d) && CanMove(runs, d, t, stage)
    ensures TeamInv(MoveTask(runs, d, t, stage, before, owner)) <==> MoveStaysInTeam(d, t, owner)
  {
    var d' := MoveTask(runs, d, t, stage, before, owner);
    MovedTasks(runs, d, t, stage, before, owner);
    assert InTeam(d, d.tasks[t]);
    assert InTeam(d', d'.tasks[t]) <==> MoveStaysInTeam(d, t, owner);
    forall x | x in d'.tasks && x != t ensures InTeam(d', d'.tasks[x]) {
      assert InTeam(d, d.tasks[x]);
    }
  }

  /** When the request names no team and the task has not changed since it was read, the validation
      itself is that condition. */
  lemma FreshMoveStaysInTeam(d: Desk, t: TaskId, p: Patch)
    requires t in d.tasks && p.team.None? && ValidMutation(d, p, Some(d.tasks[t])).Some?
    ensures MoveStaysInTeam(d, t, p.owner)
  {}

  /** A card of team 0, owned by its member 1; agent 2 belongs to team 1 only. */
  ghost function TwoTeams(): Desk {
    Desk(map[0 := Board(false, 1, None, None, None)], map[0 := Stage(0, Ready, 0.0)],
         map[0 := Task(0, 0, Some(0), Some(1), {}, 0.0, false, 1, None)], map[],
         map[0 := Team(Name(0, 0), 1, false, {1}), 1 := Team(Name(1, 1), 1, false, {2})])
  }

  lemma TwoTeamsAreSound(d: Desk)
    requires d == TwoTeams()
    ensures TeamInv(d) && CanMove([], d, 0, 0) && !MoveStaysInTeam(d, 0, Some(Some(2)))
  {
    assert InTeam(d, d.tasks[0]);
    assert BoardStages(d, 0) == {0};
  }

  /** A request that names another team takes the card out of its own. */
  lemma MoveMayLeaveTheTeam(d: Desk, p: Patch)
    requires d == TwoTeams() && p == Patch(1, None, None, Some(Some(1)), Some(Some(2)), None, None, None)
    ensures TeamInv(d) && ValidMutation(d, p, Some(d.tasks[0])).Some?
    ensures !TeamInv(MoveTask([], d, 0, 0, None, p.owner))
  {
    TwoTeamsAreSound(d);
    MoveKeepsTeamInvIff([], d, 0, 0, None, p.owner);
  }

  lemma ReplacedMembersCover(d: Desk, team: TeamId, members: set<AgentId>, t: TaskId)
    requires team in d.teams && t in d.tasks && InTeam(d, d.tasks[t])
    requires forall a | a in d.teams[team].members && a !in members :: MayLeave(d, team, a)
    ensures !d.tasks[t].archived && d.tasks[t].team == Some(team) ==>
              (d.tasks[t].owner.Some? ==> d.tasks[t].owner.value in members) && d.tasks[t].collaborators <= members
  {
    forall a | a in d.teams[team].members && a !in members ensures !BlocksRemoval(d.tasks[t], team, a) { assert MayLeave(d, team, a); }
  }

  lemma UpdateKeepsTeamInv(d: Desk, team: TeamId, revision: nat, name: Name, members: set<AgentId>)
    requires TeamInv(d)
    ensures TeamInv(UpdateTeam(d, team, revision, name, members))
  {
    var updated := UpdateTeam(d, team, revision, name, members);
    if updated != d {
      forall t | t in d.tasks ensures InTeam(updated, d.tasks[t]) {
        assert InTeam(d, d.tasks[t]);
        ReplacedMembersCover(d, team, members, t);
      }
    }
  }

  /** Replacing members, creating and retiring teams. */
  lemma TeamEditsKeepTeamInv(d: Desk, team: TeamId, revision: nat, name: Name, members: set<AgentId>)
    requires TeamInv(d)
    ensures TeamInv(UpdateTeam(d, team, revision, name, members))
    ensures TeamInv(CreateTeam(d, team, name, members))
    ensures TeamInv(RetireTeam(d, team))
  {
    UpdateKeepsTeamInv(d, team, revision, name, members);
    forall t | t in d.tasks
      ensures InTeam(CreateTeam(d, team, name, members), d.tasks[t]) && InTeam(RetireTeam(d, team), d.tasks[t])
    {
      assert InTeam(d, d.tasks[t]);
    }
  }

  lemma ImportKeepsTeamInv(d: Desk, id: Option<TeamId>, name: Name, members: set<AgentId>, newId: TeamId)
    requires TeamInv(d)
    ensures TeamInv(ImportTeam(d, id, name, members, newId))
  {
    var named := TeamNamed(d, name);
    if id.Some? && id.value in d.teams {
      UpdateKeepsTeamInv(d, id.value, d.teams[id.value].revision, name, members);
    }
    if named.Some? { UpdateKeepsTeamInv(d, named.value, d.teams[named.value].revision, name, members); }
    TeamEditsKeepTeamInv(d, Or(id, newId), 0, name, members);
  }

  // ----- names -----

  /** No two active teams share a name, as the validation compares them. */
  ghost predicate UniqueNames(teams: map<TeamId, Team>) {
    forall s, t | s in teams && t in teams && !teams[s].retired && !teams[t].retired && teams[s].name.folded == teams[t].name.folded :: s == t
  }

  lemma FreeNameStaysUnique(d: Desk, team: TeamId, row: Team)
    requires UniqueNames(d.teams) && ActiveNamed(d, row.name) <= {team}
    ensures UniqueNames(d.teams[team := row])
  {
    forall t | t in d.teams && !d.teams[t].retired && d.teams[t].name.folded == row.name.folded ensures t == team {
      assert t in ActiveNamed(d, row.name);
    }
  }

  /** Every team operation keeps the names of active teams unique for the validation. */
  lemma TeamEditsKeepNames(d: Desk, team: TeamId, revision: nat, name: Name, members: set<AgentId>)
    requires UniqueNames(d.teams)
    ensures UniqueNames(UpdateTeam(d, team, revision, name, members).teams)
    ensures UniqueNames(CreateTeam(d, team, name, members).teams)
    ensures UniqueNames(RetireTeam(d, team).teams)
  {
    if ActiveNamed(d, name) <= {team} {
      FreeNameStaysUnique(d, team, Team(name, revision + 1, false, members));
      FreeNameStaysUnique(d, team, Team(name, 1, false, members));
    }
  }

  lemma ImportKeepsNames(d: Desk, id: Option<TeamId>, name: Name, members: set<AgentId>, newId: TeamId)
    requires UniqueNames(d.teams)
    ensures UniqueNames(ImportTeam(d, id, name, members, newId).teams)
  {
    var named := TeamNamed(d, name);
    if id.Some? && id.value in d.teams { TeamEditsKeepNames(d, id.value, d.teams[id.value].revision, name, members); }
    if named.Some? { TeamEditsKeepNames(d, named.value, d.teams[named.value].revision, name, members); }
    TeamEditsKeepNames(d, Or(id, newId), 0, name, members);
  }

  // ----- names as an import compares them -----

  /** No two active teams have names that an import takes for one another. */
  ghost predicate ToldApart(teams: map<TeamId, Team>) {
    forall s, t | s in teams && t in teams && !teams[s].retired && !teams[t].retired && teams[s].name.letters == teams[t].name.letters :: s == t
  }

  lemma RowKeepsApartIff(d: Desk, team: TeamId, row: Team)
    requires ToldApart(d.teams) && !row.retired
    ensures ToldApart(d.teams[team := row]) <==> ActiveAlike(d, row.name) - {team} == {}
  {
    if t :| t in ActiveAlike(d, row.name) - {team} {
      var teams := d.teams[team := row];
      assert t != team && teams[t] == d.teams[t] && teams[team] == row;
    }
    forall t | t in d.teams && !d.teams[t].retired && d.teams[t].name.letters == row.name.letters && t != team
      ensures t in ActiveAlike(d, row.name) - {team} {}
  }

  /** Creating or renaming a team keeps that exactly if it is refused or no other active team has a name
      like it. */
  lemma EditsKeepApartIff(d: Desk, team: TeamId, revision: nat, name: Name, members: set<AgentId>)
    requires ToldApart(d.teams)
    ensures var made := CreateTeam(d, team, name, members); ToldApart(made.teams) <==> made == d || ActiveAlike(d, name) - {team} == {}
    ensures var changed := UpdateTeam(d, team, revision, name, members);
            ToldApart(changed.teams) <==> changed == d || ActiveAlike(d, name) - {team} == {}
  {
    RowKeepsApartIff(d, team, Team(name, 1, false, members));
    RowKeepsApartIff(d, team, Team(name, revision + 1, false, members));
  }

  /** An import that is taken for an active team by its name is refused exactly if another active team has
      the name already, or a member who is to leave has a current task of the team. */
  lemma ImportByNameRefusedIff(d: Desk, id: Option<TeamId>, name: Name, members: set<AgentId>, newId: TeamId)
    requires TeamNamed(d, name).Some? && (id.Some? && id.value in d.teams ==> d.teams[id.value].retired)
    ensures var team := TeamNamed(d, name).value;
            ImportTeam(d, id, name, members, newId) == d
            <==> (exists t :: t in ActiveNamed(d, name) && t != team)
                 || (exists a :: a in d.teams[team].members && a !in members && !MayLeave(d, team, a))
  {
    var team := TeamNamed(d, name).value;
    if t :| t in ActiveNamed(d, name) && t != team { assert t in ActiveNamed(d, name) - {team}; }
    var d' := ImportTeam(d, id, name, members, newId);
    if d' != d { assert d'.teams[team].revision == d.teams[team].revision + 1; }
  }

  /** Two names that differ only in the case of a letter outside ASCII: both teams are created, and an
      import of the second under its own name is taken for the first and refused. */
  lemma CaseOutsideAsciiMisleads(d: Desk, first: Name, second: Name)
    requires d == Desk(map[], map[], map[], map[], map[])
    requires first == Name(1, 0) && second == Name(2, 0)
    ensures var both := CreateTeam(CreateTeam(d, 10, first, {}), 11, second, {});
            && both.teams == map[10 := Team(first, 1, false, {}), 11 := Team(second, 1, false, {})]
            && UniqueNames(both.teams) && !ToldApart(both.teams)
            && ImportTeam(both, None, second, {7}, 12) == both
  {
    var one := CreateTeam(d, 10, first, {});
    var both := CreateTeam(one, 11, second, {});
    assert one.teams == map[10 := Team(first, 1, false, {})];
    assert ActiveNamed(one, second) == {};
    assert both.teams == map[10 := Team(first, 1, false, {}), 11 := Team(second, 1, false, {})];
    assert ActiveAlike(both, second) == {10, 11} && TeamNamed(both, second) == Some(10);
    assert 11 in ActiveNamed(both, second) - {10};
  }

  // ----- what an edit comes to -----

  /** The agent owns or helps with a card of the team that is not archived. */
  ghost predicate Needed(d: Desk, team: TeamId, agent: AgentId) {
    exists t :: t in d.tasks && d.tasks[t].team == Some(team) && !d.tasks[t].archived
                && (d.tasks[t].owner == Some(agent) || agent in d.tasks[t].collaborators)
  }

  ghost predicate IsActive(d: Desk, team: TeamId) { team in d.teams && !d.teams[team].retired }

  /** No active team but this one has the name. */
  ghost predicate NameFree(d: Desk, name: Name, team: TeamId) {
    forall t | IsActive(d, t) && d.teams[t].name.folded == name.folded :: t == team
  }

  /** A team is changed exactly under its current revision, with a name that is free, and if nobody who leaves is needed;
      then name and members are as asked for. */
  lemma TeamEditOutcome(d: Desk, team: TeamId, revision: nat, name: Name, members: set<AgentId>)
    ensures var d' := UpdateTeam(d, team, revision, name, members);
            if IsActive(d, team) && revision == d.teams[team].revision && NameFree(d, name, team)
               && forall a | a in d.teams[team].members && a !in members :: !Needed(d, team, a)
            then d' == d.(teams := d.teams[team := Team(name, revision + 1, false, members)])
            else d' == d
  {
    forall a: AgentId ensures MayLeave(d, team, a) <==> !Needed(d, team, a) {
      if Needed(d, team, a) {
        var t :| t in d.tasks && d.tasks[t].team == Some(team) && !d.tasks[t].archived
                 && (d.tasks[t].owner == Some(a) || a in d.tasks[t].collaborators);
        assert BlocksRemoval(d.tasks[t], team, a);
      }
    }
    assert ActiveNamed(d, name) - {team} == {} <==> NameFree(d, name, team) by { NameFreeIff(d, name, team); }
  }

  lemma NameFreeIff(d: Desk, name: Name, team: TeamId)
    ensures ActiveNamed(d, name) - {team} == {} <==> NameFree(d, name, team)
  {
    if t :| IsActive(d, t) && d.teams[t].name.folded == name.folded && t != team { assert t in ActiveNamed(d, name) - {team}; }
  }

  /** A team is created exactly under a new identifier and a name that no active team has, and retired exactly if it is
      active and all its cards are archived. */
  lemma TeamLifeOutcome(d: Desk, team: TeamId, name: Name, members: set<AgentId>)
    ensures CreateTeam(d, team, name, members) ==
              if team !in d.teams && NameFree(d, name, team) then d.(teams := d.teams[team := Team(name, 1, false, members)]) else d
    ensures RetireTeam(d, team) ==
              if IsActive(d, team) && forall t | t in d.tasks && d.tasks[t].team == Some(team) :: d.tasks[t].archived
              then d.(teams := d.teams[team := d.teams[team].(revision := d.teams[team].revision + 1, retired := true, members := {})])
              else d
  {
    NameFreeIff(d, name, team);
  }

  /** The first active team, in the order of names, that an import takes for this name. */
  ghost predicate FirstAlike(d: Desk, name: Name, team: TeamId) {
    && IsActive(d, team) && d.teams[team].name.letters == name.letters
    && forall t | IsActive(d, t) && d.teams[t].name.letters == name.letters && t != team ::
         d.teams[team].name.folded < d.teams[t].name.folded || (d.teams[team].name.folded == d.teams[t].name.folded && team < t)
  }

  /** The team an import is about: the active one with its identifier, else the first with a name like it, else a new
      one under its identifier, or under a fresh one if it has none. */
  ghost predicate IsAbout(d: Desk, id: Option<TeamId>, name: Name, newId: TeamId, team: TeamId) {
    if id.Some? && IsActive(d, id.value) then team == id.value
    else if exists t :: IsActive(d, t) && d.teams[t].name.letters == name.letters then FirstAlike(d, name, team)
    else team == if id.Some? then id.value else newId
  }

  lemma TeamNamedIsFirst(d: Desk, name: Name)
    ensures TeamNamed(d, name).Some? <==> exists t :: IsActive(d, t) && d.teams[t].name.letters == name.letters
    ensures TeamNamed(d, name).Some? ==> FirstAlike(d, name, TeamNamed(d, name).value)
  {
    var found := ActiveAlike(d, name);
    if t :| IsActive(d, t) && d.teams[t].name.letters == name.letters { assert t in found; }
    if found != {} {
      var m := TeamNamed(d, name).value;
      assert m in found;
      forall t | IsActive(d, t) && d.teams[t].name.letters == name.letters && t != m
        ensures d.teams[m].name.folded < d.teams[t].name.folded || (d.teams[m].name.folded == d.teams[t].name.folded && m < t)
      {
        assert t in found && NameOrder(d)[m] <= NameOrder(d)[t];
      }
    }
  }

  /** An import changes that team only, and gives it the name and members of the file, or changes nothing. */
  lemma ImportOutcome(d: Desk, id: Option<TeamId>, name: Name, members: set<AgentId>, newId: TeamId)
    returns (team: TeamId)
    requires newId !in d.teams
    ensures IsAbout(d, id, name, newId, team)
    ensures var d' := ImportTeam(d, id, name, members, newId);
            if IsActive(d, team)
            then d' == UpdateTeam(d, team, d.teams[team].revision, name, members)
            else d' == CreateTeam(d, team, name, members)
  {
    TeamNamedIsFirst(d, name);
    if id.Some? && IsActive(d, id.value) {
      team := id.value;
    } else if TeamNamed(d, name).Some? {
      team := TeamNamed(d, name).value;
    } else {
      team := if id.Some? then id.value else newId;
    }
  }

  // ----- what the validation lets through -----

  /** The owner does not help. */
  ghost predicate AllBut(given: set<AgentId>, owner: Option<AgentId>, helpers: set<AgentId>) {
    forall a :: a in helpers <==> a in given && owner != Some(a)
  }

  /** What a card is to have: the value asked for, or else the one it has, or a new card starts with. */
  ghost predicate Asks(d: Desk, p: Patch, seen: Option<Task>, team: Option<TeamId>, owner: Option<AgentId>, helpers: set<AgentId>) {
    && (match p.team
        case Some(asked) => team == asked
        case None => team == match seen { case Some(task) => task.team case None => None })
    && (match p.owner
        case Some(asked) => owner == asked
        case None =>
          match seen
          case Some(task) => owner == task.owner
          case None => owner == if p.board.Some? && p.board.value in d.boards then d.boards[p.board.value].defaultOwner else None)
    && (match p.collaborators
        case Some(asked) => AllBut(asked, owner, helpers)
        case None => AllBut(match seen { case Some(task) => task.collaborators case None => {} }, owner, helpers))
  }

  /** A request is let through exactly if its owner and helpers belong to its active team, or it has no team and no
      helpers. Only a card that never had a team keeps helpers it has, when the request does not name any. */
  lemma ValidationOutcome(d: Desk, p: Patch, seen: Option<Task>, team: Option<TeamId>, owner: Option<AgentId>, helpers: set<AgentId>)
    requires Asks(d, p, seen, team, owner, helpers)
    ensures var valid := ValidMutation(d, p, seen);
            && (valid.Some? <==>
                  if team == None then helpers == {} || (seen.Some? && seen.value.team == None && p.collaborators == None)
                  else IsActive(d, team.value) && forall a | owner == Some(a) || a in helpers :: a in d.teams[team.value].members)
            && (valid.Some? ==> valid.value == p.(team := Some(team), owner := Some(owner), collaborators := Some(helpers)))
  {
    var given := Or(p.collaborators, if seen.Some? then seen.value.collaborators else {});
    assert helpers == if owner.Some? then given - {owner.value} else given;
  }
}
