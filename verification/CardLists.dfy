/** What the cards of a stage look like to the user: an ordered list. Creating and moving cards are
    edits of these lists. */
module CardLists {
  import opened Rows
  import opened Ranking
  import opened Cards
  import opened Desk

  function View(d: Desk, st: StageId): seq<TaskId> {
    Ordered(VisibleTasks(d, st), TaskPositions(d))
  }

  function Without(o: seq<nat>, x: nat): (r: seq<nat>)
    ensures forall y :: y in r <==> y in o && y != x
  {
    if o == [] then [] else (if o[0] == x then [] else [o[0]]) + Without(o[1..], x)
  }

  lemma {:induction false} WithoutSorted(o: seq<nat>, pos: map<nat, real>, x: nat)
    requires (forall y | y in o :: y in pos) && Sorted(o, pos)
    ensures Sorted(Without(o, x), pos)
  {
    if o != [] {
      var rest := o[1..];
      assert Sorted(rest, pos) by {
        forall i, j | 0 <= i < j < |rest| ensures Before(pos, rest[i], rest[j]) { assert Before(pos, o[i + 1], o[j + 1]); }
      }
      WithoutSorted(rest, pos, x);
      var kept := Without(rest, x);
      forall j | 0 <= j < |kept| ensures Before(pos, o[0], kept[j]) {
        assert kept[j] in rest;
        var i :| 0 <= i < |rest| && rest[i] == kept[j];
        assert Before(pos, o[0], o[i + 1]);
      }
    }
  }

  lemma OrderedWithout(S: set<nat>, pos: map<nat, real>, x: nat)
    requires S <= pos.Keys
    ensures Ordered(S - {x}, pos) == Without(Ordered(S, pos), x)
  {
    WithoutSorted(Ordered(S, pos), pos, x);
    assert Elements(Without(Ordered(S, pos), x)) == S - {x};
    OrderedUnique(Without(Ordered(S, pos), x), S - {x}, pos);
  }

  // ----- one move -----

  ghost function Only(condition: bool, t: TaskId): set<TaskId> { if condition then {t} else {} }

  lemma SetTaskFacts(d: Desk, t: TaskId, task: Task, st: StageId)
    ensures var d' := SetTask(d, t, task);
            && TaskPositions(d') == TaskPositions(d)[t := task.position]
            && StageTasks(d', st) == StageTasks(d, st) - {t} + Only(task.stage == st, t)
            && VisibleTasks(d', st) == VisibleTasks(d, st) - {t} + Only(task.stage == st && !task.archived, t)
  {}

  lemma PositionsFacts(d: Desk, pos: map<nat, real>, st: StageId)
    requires d.tasks.Keys == pos.Keys
    ensures var d' := d.(tasks := WithPositions(d.tasks, pos));
            && TaskPositions(d') == pos
            && StageTasks(d', st) == StageTasks(d, st)
            && VisibleTasks(d', st) == VisibleTasks(d, st)
  {
    PositionsOnly(d.tasks, pos);
  }

  /** One stage after a move, as far as lists are concerned. */
  ghost predicate MovedAt(d: Desk, d': Desk, t: TaskId, stage: StageId, st: StageId)
    requires t in d.tasks
  {
    && StageTasks(d', st) == StageTasks(d, st) - {t} + Only(st == stage, t)
    && VisibleTasks(d', st) == VisibleTasks(d, st) - {t} + Only(st == stage && !d.tasks[t].archived, t)
  }

  /** The positions after a move. */
  ghost predicate Resettled(d: Desk, d': Desk, t: TaskId, stage: StageId, p: real) {
    && StageTasks(d', stage) <= TaskPositions(d)[t := p].Keys
    && TaskPositions(d') == Settle(StageTasks(d', stage), TaskPositions(d)[t := p])
  }

  lemma DroppedAt(d: Desk, t: TaskId, stage: StageId, before: Option<TaskId>, owner: Option<Option<AgentId>>, st: StageId)
    requires t in d.tasks
    ensures var dropped := Dropped(d, t, stage, before, owner);
            && MovedAt(d, dropped, t, stage, st)
            && TaskPositions(dropped) == TaskPositions(d)[t := DropPosition(d, t, stage, before)]
  {
    var dropped := Dropped(d, t, stage, before, owner);
    TaskMovedAt(d, t, dropped.tasks[t], stage, DropPosition(d, t, stage, before), st);
  }

  lemma TaskMovedAt(d: Desk, t: TaskId, task: Task, stage: StageId, p: real, st: StageId)
    requires t in d.tasks && task.stage == stage && task.archived == d.tasks[t].archived && task.position == p
    ensures MovedAt(d, SetTask(d, t, task), t, stage, st)
    ensures TaskPositions(SetTask(d, t, task)) == TaskPositions(d)[t := p]
  {
    SetTaskFacts(d, t, task, st);
  }

  lemma ResettledAt(d: Desk, dropped: Desk, d': Desk, t: TaskId, stage: StageId, p: real, st: StageId)
    requires t in d.tasks && MovedAt(d, dropped, t, stage, st) && dropped.tasks.Keys == d.tasks.Keys
    requires TaskPositions(dropped) == TaskPositions(d)[t := p]
    requires d' == dropped.(tasks := WithPositions(dropped.tasks, Settle(StageTasks(dropped, stage), TaskPositions(dropped))))
    ensures MovedAt(d, d', t, stage, st) && Resettled(d, d', t, stage, p)
  {
    var pos := Settle(StageTasks(dropped, stage), TaskPositions(dropped));
    PositionsFacts(dropped, pos, st);
    PositionsFacts(dropped, pos, stage);
  }

  lemma MoveResettles(runs: seq<Run>, d: Desk, t: TaskId, stage: StageId, before: Option<TaskId>, owner: Option<Option<AgentId>>)
    requires CanMove(runs, d, t, stage)
    ensures var dropped := Dropped(d, t, stage, before, owner);
            && dropped.tasks.Keys == d.tasks.Keys
            && MoveTask(runs, d, t, stage, before, owner) ==
                 dropped.(tasks := WithPositions(dropped.tasks, Settle(StageTasks(dropped, stage), TaskPositions(dropped))))
  {}

  lemma MoveFacts(runs: seq<Run>, d: Desk, t: TaskId, stage: StageId, before: Option<TaskId>,
                  owner: Option<Option<AgentId>>, st: StageId)
    requires CanMove(runs, d, t, stage)
    ensures var d' := MoveTask(runs, d, t, stage, before, owner);
            MovedAt(d, d', t, stage, st) && Resettled(d, d', t, stage, DropPosition(d, t, stage, before))
  {
    DroppedAt(d, t, stage, before, owner, st);
    MoveResettles(runs, d, t, stage, before, owner);
    ResettledAt(d, Dropped(d, t, stage, before, owner), MoveTask(runs, d, t, stage, before, owner), t, stage,
                DropPosition(d, t, stage, before), st);
  }

  lemma MovedTarget(d: Desk, d': Desk, t: TaskId, stage: StageId, p: real)
    requires t in d.tasks && MovedAt(d, d', t, stage, stage) && Resettled(d, d', t, stage, p)
    ensures WellSpaced(StageTasks(d', stage), TaskPositions(d'))
    ensures View(d', stage) == Ordered(VisibleTasks(d', stage), TaskPositions(d)[t := p])
  {
    SettleSpaces(StageTasks(d', stage), TaskPositions(d)[t := p]);
    SettleKeepsListings(StageTasks(d', stage), VisibleTasks(d', stage), TaskPositions(d)[t := p]);
  }

  /** Where a dropped card lands among its new neighbours: half-way between the named card and the one before it, 1000
      before the first, or 1000 behind the last. */
  ghost predicate LandsAt(siblings: seq<TaskId>, pos: map<nat, real>, before: Option<TaskId>, p: real)
    requires forall x | x in siblings :: x in pos
  {
    if before.Some? && before.value in siblings then
      exists i :: 0 <= i < |siblings| && siblings[i] == before.value
                  && if i == 0 then p == pos[siblings[0]] - 1000.0 else 2.0 * p == pos[siblings[i - 1]] + pos[siblings[i]]
    else p == 1000.0 + if siblings == [] then 0.0 else pos[siblings[|siblings| - 1]]
  }

  lemma DropLands(d: Desk, t: TaskId, stage: StageId, before: Option<TaskId>)
    requires t in d.tasks
    ensures LandsAt(Siblings(d, t, stage), TaskPositions(d), before, DropPosition(d, t, stage, before))
  {
    var siblings := Siblings(d, t, stage);
    if before.Some? && before.value in siblings {
      var i := IndexOf(siblings, before.value);
      assert siblings[i] == before.value;
    }
  }

  /** The card has landed at `p` among the other cards the stage shows, and the stage, archived cards included, was then
      renumbered if two neighbours were too close. */
  ghost predicate LandedAndSettled(d: Desk, d': Desk, t: TaskId, stage: StageId, before: Option<TaskId>, p: real) {
    && (forall x | x in Without(View(d, stage), t) :: x in TaskPositions(d))
    && LandsAt(Without(View(d, stage), t), TaskPositions(d), before, p)
    && StageTasks(d', stage) <= TaskPositions(d)[t := p].Keys
    && Settled(StageTasks(d', stage), TaskPositions(d)[t := p], TaskPositions(d'))
  }

  /** The positions after a move. */
  lemma MovedPositions(runs: seq<Run>, d: Desk, t: TaskId, stage: StageId, before: Option<TaskId>, owner: Option<Option<AgentId>>)
    requires CanMove(runs, d, t, stage)
    ensures LandedAndSettled(d, MoveTask(runs, d, t, stage, before, owner), t, stage, before, DropPosition(d, t, stage, before))
  {
    DropLands(d, t, stage, before);
    OrderedWithout(VisibleTasks(d, stage), TaskPositions(d), t);
    MoveFacts(runs, d, t, stage, before, owner, stage);
    SettleOutcome(StageTasks(MoveTask(runs, d, t, stage, before, owner), stage), TaskPositions(d)[t := DropPosition(d, t, stage, before)]);
  }

  lemma ListWithout(S: set<nat>, pos: map<nat, real>, S': set<nat>, pos': map<nat, real>, t: nat)
    requires S <= pos.Keys && S' <= pos'.Keys && S' == S - {t}
    requires forall x | x in S' :: pos'[x] == pos[x]
    ensures Ordered(S', pos') == Without(Ordered(S, pos), t)
  {
    AgreeingListing(S', pos, pos');
    OrderedWithout(S, pos, t);
  }

  lemma SpacedWithout(S: set<nat>, pos: map<nat, real>, S': set<nat>, pos': map<nat, real>)
    requires S <= pos.Keys && S' <= pos'.Keys && S' <= S && WellSpaced(S, pos)
    requires forall x | x in S' :: pos'[x] == pos[x]
    ensures WellSpaced(S', pos')
  {
    forall a, b | a in S' && b in S' && Before(pos', a, b) ensures pos'[b] - pos'[a] >= MIN_GAP {
      assert Before(pos, a, b);
    }
  }

  lemma Undisturbed(d: Desk, d': Desk, t: TaskId, stage: StageId, p: real, st: StageId, x: TaskId)
    requires t in d.tasks && Resettled(d, d', t, stage, p) && st != stage && x in StageTasks(d', st) && x != t && x in d.tasks
    ensures TaskPositions(d')[x] == TaskPositions(d)[x]
  {
    assert x !in StageTasks(d', stage);
  }

  lemma MovedElsewhere(d: Desk, d': Desk, t: TaskId, stage: StageId, p: real, st: StageId)
    requires t in d.tasks && MovedAt(d, d', t, stage, st) && Resettled(d, d', t, stage, p) && st != stage
    ensures View(d', st) == Without(View(d, st), t)
    ensures WellSpaced(StageTasks(d, st), TaskPositions(d)) ==> WellSpaced(StageTasks(d', st), TaskPositions(d'))
  {
    var all', shown' := StageTasks(d', st), VisibleTasks(d', st);
    assert all' == StageTasks(d, st) - {t} && shown' == VisibleTasks(d, st) - {t} && shown' <= all';
    forall x | x in all' ensures TaskPositions(d')[x] == TaskPositions(d)[x] { Undisturbed(d, d', t, stage, p, st, x); }
    ListWithout(VisibleTasks(d, st), TaskPositions(d), shown', TaskPositions(d'), t);
    if WellSpaced(StageTasks(d, st), TaskPositions(d)) {
      SpacedWithout(StageTasks(d, st), TaskPositions(d), all', TaskPositions(d'));
    }
  }

  /** The list of the target stage: the card goes in front of the named sibling, or last, and the
      others keep their order, exactly when there is room between the neighbours. */
  lemma MoveIsInsertionIffRoom(runs: seq<Run>, d: Desk, t: TaskId, stage: StageId, before: Option<TaskId>, owner: Option<Option<AgentId>>)
    requires CanMove(runs, d, t, stage) && !d.tasks[t].archived
    ensures var siblings := Siblings(d, t, stage);
            var place := PlaceOf(siblings, before);
            && siblings == Without(View(d, stage), t)
            && (View(MoveTask(runs, d, t, stage, before, owner), stage) == InsertAt(siblings, place, t)
                <==> RoomBetween(siblings, TaskPositions(d), place, t))
  {
    var d' := MoveTask(runs, d, t, stage, before, owner);
    var others := VisibleTasks(d, stage) - {t};
    MoveFacts(runs, d, t, stage, before, owner, stage);
    MovedTarget(d, d', t, stage, DropPosition(d, t, stage, before));
    OrderedWithout(VisibleTasks(d, stage), TaskPositions(d), t);
    PlacedExactlyIffRoom(others, TaskPositions(d), PlaceOf(Siblings(d, t, stage), before), t);
    assert VisibleTasks(d', stage) == others + {t};
  }

  /** Whatever collisions there were, the target stage ends well spaced, and the other stages lose
      the card and keep their order. */
  lemma MoveSpacesTarget(runs: seq<Run>, d: Desk, t: TaskId, stage: StageId, before: Option<TaskId>, owner: Option<Option<AgentId>>)
    requires CanMove(runs, d, t, stage)
    ensures var d' := MoveTask(runs, d, t, stage, before, owner);
            && WellSpaced(StageTasks(d', stage), TaskPositions(d'))
            && forall st | st != stage :: View(d', st) == Without(View(d, st), t)
  {
    var d' := MoveTask(runs, d, t, stage, before, owner);
    var p := DropPosition(d, t, stage, before);
    MoveFacts(runs, d, t, stage, before, owner, stage);
    MovedTarget(d, d', t, stage, p);
    forall st: StageId | st != stage ensures View(d', st) == Without(View(d, st), t) {
      MoveFacts(runs, d, t, stage, before, owner, st);
      MovedElsewhere(d, d', t, stage, p, st);
    }
  }

  /** An archived card is not shown, so moving it changes no list. */
  lemma MovedArchivedTarget(d: Desk, d': Desk, t: TaskId, stage: StageId, p: real)
    requires t in d.tasks && Resettled(d, d', t, stage, p) && MovedAt(d, d', t, stage, stage) && d.tasks[t].archived
    ensures View(d', stage) == View(d, stage)
  {
    var shown, pos := VisibleTasks(d, stage), TaskPositions(d);
    assert t !in shown;
    assert VisibleTasks(d', stage) == shown;
    MovedTarget(d, d', t, stage, p);
    AgreeingListing(shown, pos, pos[t := p]);
  }

  lemma {:induction false} WithoutAbsent(o: seq<nat>, x: nat)
    requires x !in o
    ensures Without(o, x) == o
  {
    if o != [] {
      WithoutAbsent(o[1..], x);
      assert o == [o[0]] + o[1..];
    }
  }

  // ----- creation -----

  lemma EndIsLast(d: Desk, st: StageId, t: TaskId)
    requires t in StageTasks(d, st)
    ensures d.tasks[t].position <= EndOfStage(d, st) - 1.0
  {
    var o := Ordered(StageTasks(d, st), TaskPositions(d));
    assert t in o;
    var i :| 0 <= i < |o| && o[i] == t;
    if i < |o| - 1 { assert Before(TaskPositions(d), o[i], o[|o| - 1]); }
  }

  predicate Creates(d: Desk, t: TaskId, p: Patch, st: StageId) {
    && t !in d.tasks && p.board.Some? && p.board.value in d.boards
    && (if p.stage.Some? then p.stage else FirstOf(d, p.board.value, Backlog)) == Some(st)
    && st in BoardStages(d, p.board.value)
  }

  lemma CreatedFacts(d: Desk, t: TaskId, p: Patch, stage: StageId, st: StageId)
    requires Creates(d, t, p, stage)
    ensures var d' := CreateTask(d, t, p);
            && TaskPositions(d') == TaskPositions(d)[t := EndOfStage(d, stage)]
            && StageTasks(d', st) == StageTasks(d, st) + Only(stage == st, t)
            && VisibleTasks(d', st) == VisibleTasks(d, st) + Only(stage == st, t)
            && t !in StageTasks(d, st) && t !in VisibleTasks(d, st)
  {
    var d' := CreateTask(d, t, p);
    var task := d'.tasks[t];
    assert d' == SetTask(d, t, task) && task.stage == stage && !task.archived && task.position == EndOfStage(d, stage);
    SetTaskFacts(d, t, task, st);
    assert StageTasks(d, st) - {t} == StageTasks(d, st) && VisibleTasks(d, st) - {t} == VisibleTasks(d, st);
  }

  lemma CreatedHere(d: Desk, t: TaskId, p: Patch, stage: StageId)
    requires Creates(d, t, p, stage)
    ensures var d' := CreateTask(d, t, p);
            && View(d', stage) == View(d, stage) + [t]
            && (WellSpaced(StageTasks(d, stage), TaskPositions(d)) ==> WellSpaced(StageTasks(d', stage), TaskPositions(d')))
  {
    var end := EndOfStage(d, stage);
    CreatedFacts(d, t, p, stage, stage);
    forall x | x in StageTasks(d, stage) ensures TaskPositions(d)[x] + 1.0 <= end { EndIsLast(d, stage, x); }
    AppendList(VisibleTasks(d, stage), TaskPositions(d), t, end);
    AppendSpaced(StageTasks(d, stage), TaskPositions(d), t, end);
  }

  lemma SameStageSameList(d: Desk, d': Desk, st: StageId)
    requires StageTasks(d', st) == StageTasks(d, st) && VisibleTasks(d', st) == VisibleTasks(d, st)
    requires forall x | x in StageTasks(d, st) :: TaskPositions(d')[x] == TaskPositions(d)[x]
    ensures View(d', st) == View(d, st)
    ensures WellSpaced(StageTasks(d, st), TaskPositions(d)) ==> WellSpaced(StageTasks(d', st), TaskPositions(d'))
  {
    assert VisibleTasks(d, st) <= StageTasks(d, st);
    AgreeingListing(VisibleTasks(d, st), TaskPositions(d), TaskPositions(d'));
    if WellSpaced(StageTasks(d, st), TaskPositions(d)) {
      SpacedWithout(StageTasks(d, st), TaskPositions(d), StageTasks(d', st), TaskPositions(d'));
    }
  }

  lemma CreatedElsewhere(d: Desk, t: TaskId, p: Patch, stage: StageId, st: StageId)
    requires Creates(d, t, p, stage) && st != stage
    ensures var d' := CreateTask(d, t, p);
            && View(d', st) == View(d, st)
            && (WellSpaced(StageTasks(d, st), TaskPositions(d)) ==> WellSpaced(StageTasks(d', st), TaskPositions(d')))
  {
    CreatedFacts(d, t, p, stage, st);
    SameStageSameList(d, CreateTask(d, t, p), st);
  }

  /** A new card is the last of its stage and leaves the other stages alone. */
  lemma CreateIsAppend(d: Desk, t: TaskId, p: Patch, stage: StageId, st: StageId)
    requires Creates(d, t, p, stage)
    ensures var d' := CreateTask(d, t, p);
            && View(d', st) == (if st == stage then View(d, st) + [t] else View(d, st))
            && (WellSpaced(StageTasks(d, st), TaskPositions(d)) ==> WellSpaced(StageTasks(d', st), TaskPositions(d')))
  {
    if st == stage { CreatedHere(d, t, p, stage); } else { CreatedElsewhere(d, t, p, stage, st); }
  }

  lemma AppendSpaced(S: set<nat>, pos: map<nat, real>, t: nat, p: real)
    requires S <= pos.Keys && t !in S && forall x | x in S :: pos[x] + 1.0 <= p
    ensures WellSpaced(S, pos) ==> WellSpaced(S + {t}, pos[t := p])
  {
    var pos' := pos[t := p];
    if WellSpaced(S, pos) {
      forall a, b | a in S + {t} && b in S + {t} && Before(pos', a, b) ensures pos'[b] - pos'[a] >= MIN_GAP {
        if a in S && b in S { assert Before(pos, a, b); }
      }
    }
  }

  lemma AppendList(S: set<nat>, pos: map<nat, real>, t: nat, p: real)
    requires S <= pos.Keys && t !in S && forall x | x in S :: pos[x] + 1.0 <= p
    ensures Ordered(S + {t}, pos[t := p]) == Ordered(S, pos) + [t]
  {
    var o, pos' := Ordered(S, pos), pos[t := p];
    assert Elements(o) == S && Sorted(o, pos);
    AppendedIsSorted(o, pos, t, p);
    assert Elements(o + [t]) == S + {t};
    OrderedUnique(o + [t], S + {t}, pos');
  }

  lemma AppendedIsSorted(o: seq<nat>, pos: map<nat, real>, t: nat, p: real)
    requires (forall x | x in o :: x in pos && x != t && pos[x] + 1.0 <= p) && Sorted(o, pos)
    ensures (forall x | x in o + [t] :: x in pos[t := p]) && Sorted(o + [t], pos[t := p])
  {
    forall i, j | 0 <= i < j < |o + [t]| ensures Before(pos[t := p], (o + [t])[i], (o + [t])[j]) {
      if j < |o| { assert Before(pos, o[i], o[j]); }
    }
  }

  // ----- sequences of creations and moves -----

  datatype CardOp =
    | Create(task: TaskId, patch: Patch)
    | Move(task: TaskId, stage: StageId, before: Option<TaskId>, owner: Option<Option<AgentId>>)

  function Apply(runs: seq<Run>, d: Desk, op: CardOp): Desk {
    match op
    case Create(t, p) => CreateTask(d, t, p)
    case Move(t, st, before, owner) => MoveTask(runs, d, t, st, before, owner)
  }

  /** The list of every stage. */
  function Views(d: Desk): map<StageId, seq<TaskId>> {
    map st | st in d.stages :: View(d, st)
  }

  predicate Shown(lists: map<StageId, seq<TaskId>>, t: TaskId) {
    exists st | st in lists :: t in lists[st]
  }

  function MoveInLists(lists: map<StageId, seq<TaskId>>, t: TaskId, stage: StageId, before: Option<TaskId>): map<StageId, seq<TaskId>> {
    if Shown(lists, t) then map st | st in lists :: Reinsert(Without(lists[st], t), st == stage, before, t) else lists
  }

  /** The list without the card; in the target stage, with the card in its new place. */
  function Reinsert(rest: seq<TaskId>, target: bool, before: Option<TaskId>, t: TaskId): seq<TaskId> {
    if target then InsertAt(rest, PlaceOf(rest, before), t) else rest
  }

  ghost predicate AllSpaced(d: Desk) {
    forall st: StageId :: WellSpaced(StageTasks(d, st), TaskPositions(d))
  }

  ghost predicate OnStages(d: Desk) {
    forall t | t in d.tasks :: d.tasks[t].stage in d.stages
  }

  lemma MoveKeepsSpacing(runs: seq<Run>, d: Desk, t: TaskId, stage: StageId, before: Option<TaskId>, owner: Option<Option<AgentId>>)
    requires CanMove(runs, d, t, stage) && AllSpaced(d) && OnStages(d)
    ensures var d' := MoveTask(runs, d, t, stage, before, owner); AllSpaced(d') && OnStages(d') && d'.stages == d.stages
  {
    var d' := MoveTask(runs, d, t, stage, before, owner);
    var p := DropPosition(d, t, stage, before);
    MovedTasks(runs, d, t, stage, before, owner);
    forall st: StageId ensures WellSpaced(StageTasks(d', st), TaskPositions(d')) {
      assert WellSpaced(StageTasks(d, st), TaskPositions(d));
      MoveFacts(runs, d, t, stage, before, owner, st);
      if st == stage { MovedTarget(d, d', t, stage, p); } else { MovedElsewhere(d, d', t, stage, p, st); }
    }
  }

  lemma CreateKeepsSpacing(d: Desk, t: TaskId, p: Patch)
    requires AllSpaced(d) && OnStages(d)
    ensures var d' := CreateTask(d, t, p); AllSpaced(d') && OnStages(d') && d'.stages == d.stages
  {
    var d' := CreateTask(d, t, p);
    if d' != d {
      forall st: StageId ensures WellSpaced(StageTasks(d', st), TaskPositions(d')) {
        assert WellSpaced(StageTasks(d, st), TaskPositions(d));
        CreateIsAppend(d, t, p, d'.tasks[t].stage, st);
      }
    }
  }

  lemma ShownIffVisible(d: Desk, t: TaskId)
    requires t in d.tasks && OnStages(d)
    ensures Shown(Views(d), t) <==> !d.tasks[t].archived
  {
    var views := Views(d);
    forall st | st in views ensures t in views[st] <==> t in VisibleTasks(d, st) {}
    if !d.tasks[t].archived { assert d.tasks[t].stage in views && t in VisibleTasks(d, d.tasks[t].stage); }
  }

  lemma MoveShowsTarget(runs: seq<Run>, d: Desk, t: TaskId, stage: StageId, before: Option<TaskId>, owner: Option<Option<AgentId>>)
    requires CanMove(runs, d, t, stage) && WellSpaced(StageTasks(d, stage), TaskPositions(d)) && !d.tasks[t].archived
    ensures View(MoveTask(runs, d, t, stage, before, owner), stage) == Reinsert(Without(View(d, stage), t), true, before, t)
  {
    MoveIsInsertionIffRoom(runs, d, t, stage, before, owner);
    var others := VisibleTasks(d, stage) - {t};
    SpacedWithout(StageTasks(d, stage), TaskPositions(d), others, TaskPositions(d));
    SpacedHasRoom(others, TaskPositions(d), PlaceOf(Siblings(d, t, stage), before), t);
  }

  lemma MoveShows(runs: seq<Run>, d: Desk, t: TaskId, stage: StageId, before: Option<TaskId>,
                  owner: Option<Option<AgentId>>, st: StageId)
    requires CanMove(runs, d, t, stage) && WellSpaced(StageTasks(d, stage), TaskPositions(d))
    ensures View(MoveTask(runs, d, t, stage, before, owner), st) ==
            if d.tasks[t].archived then View(d, st) else Reinsert(Without(View(d, st), t), st == stage, before, t)
  {
    var d', p := MoveTask(runs, d, t, stage, before, owner), DropPosition(d, t, stage, before);
    MoveFacts(runs, d, t, stage, before, owner, st);
    if st != stage {
      MovedElsewhere(d, d', t, stage, p, st);
      if d.tasks[t].archived { WithoutAbsent(View(d, st), t); }
    } else if d.tasks[t].archived {
      MovedArchivedTarget(d, d', t, stage, p);
    } else {
      MoveShowsTarget(runs, d, t, stage, before, owner);
    }
  }

  lemma MovedListAt(runs: seq<Run>, d: Desk, t: TaskId, stage: StageId, before: Option<TaskId>,
                    owner: Option<Option<AgentId>>, lists: map<StageId, seq<TaskId>>, st: StageId)
    requires CanMove(runs, d, t, stage) && AllSpaced(d) && OnStages(d) && lists == Views(d) && st in d.stages
    ensures View(MoveTask(runs, d, t, stage, before, owner), st) ==
            if Shown(lists, t) then Reinsert(Without(lists[st], t), st == stage, before, t) else lists[st]
  {
    assert WellSpaced(StageTasks(d, stage), TaskPositions(d));
    ShownIffVisible(d, t);
    MoveShows(runs, d, t, stage, before, owner, st);
  }

  lemma MoveIsListEdit(runs: seq<Run>, d: Desk, t: TaskId, stage: StageId, before: Option<TaskId>,
                       owner: Option<Option<AgentId>>, lists: map<StageId, seq<TaskId>>)
    requires AllSpaced(d) && OnStages(d) && CanMove(runs, d, t, stage) && lists == Views(d)
    ensures Views(MoveTask(runs, d, t, stage, before, owner)) == MoveInLists(lists, t, stage, before)
  {
    var lists' := Views(MoveTask(runs, d, t, stage, before, owner));
    assert lists'.Keys == lists.Keys by { MovedTasks(runs, d, t, stage, before, owner); }
    forall st | st in lists
      ensures lists'[st] == if Shown(lists, t) then Reinsert(Without(lists[st], t), st == stage, before, t) else lists[st]
    {
      MovedListAt(runs, d, t, stage, before, owner, lists, st);
    }
    MovedLists(lists, lists', t, stage, before);
  }

  lemma MovedLists(lists: map<StageId, seq<TaskId>>, lists': map<StageId, seq<TaskId>>, t: TaskId, stage: StageId, before: Option<TaskId>)
    requires lists'.Keys == lists.Keys
    requires forall st | st in lists ::
               lists'[st] == if Shown(lists, t) then Reinsert(Without(lists[st], t), st == stage, before, t) else lists[st]
    ensures lists' == MoveInLists(lists, t, stage, before)
  {}

  /** Stages that are well spaced stay so. */
  lemma ApplyKeepsSpacing(runs: seq<Run>, d: Desk, op: CardOp)
    requires AllSpaced(d) && OnStages(d)
    ensures AllSpaced(Apply(runs, d, op)) && OnStages(Apply(runs, d, op))
  {
    match op
    case Create(t, p) => CreateKeepsSpacing(d, t, p);
    case Move(t, stage, before, owner) =>
      if CanMove(runs, d, t, stage) { MoveKeepsSpacing(runs, d, t, stage, before, owner); }
  }

  function ApplyAll(runs: seq<Run>, d: Desk, ops: seq<CardOp>): Desk
    decreases |ops|
  {
    if ops == [] then d else ApplyAll(runs, Apply(runs, d, ops[0]), ops[1..])
  }

  // ----- the wall: lists that need no positions -----

  /** What a user sees and the few facts about boards that decide which edits are allowed: no position,
      no revision, no archive flag. `shelf` is where a board puts a card created without a stage. */
  datatype Wall = Wall(lists: map<StageId, seq<TaskId>>, boards: set<BoardId>, stageBoard: map<StageId, BoardId>,
                       taskBoard: map<TaskId, BoardId>, locked: set<TaskId>, shelf: map<BoardId, StageId>)

  function WallOf(runs: seq<Run>, d: Desk): Wall {
    Wall(Views(d), d.boards.Keys, StageBoards(d), TaskBoards(d), LockedTasks(runs, d), Shelves(d))
  }

  function StageBoards(d: Desk): map<StageId, BoardId> { map st | st in d.stages :: d.stages[st].board }

  function TaskBoards(d: Desk): map<TaskId, BoardId> { map t | t in d.tasks :: d.tasks[t].board }

  function LockedTasks(runs: seq<Run>, d: Desk): set<TaskId> { set t | t in d.tasks && Locked(runs, d.tasks[t]) }

  function Shelves(d: Desk): map<BoardId, StageId> {
    map b | b in d.boards && FirstOf(d, b, Backlog).Some? :: FirstOf(d, b, Backlog).value
  }

  /** The stage a new card goes to, if it may be created. */
  function WallCreates(w: Wall, t: TaskId, p: Patch): Option<StageId> {
    if t in w.taskBoard || p.board.None? || p.board.value !in w.boards then None
    else
      var stage := if p.stage.Some? then p.stage
                   else if p.board.value in w.shelf then Some(w.shelf[p.board.value]) else None;
      if stage.Some? && stage.value in w.stageBoard && w.stageBoard[stage.value] == p.board.value then stage else None
  }

  predicate WallMoves(w: Wall, t: TaskId, stage: StageId) {
    t in w.taskBoard && t !in w.locked && stage in w.stageBoard && w.stageBoard[stage] == w.taskBoard[t]
  }

  function AppendTo(lists: map<StageId, seq<TaskId>>, stage: StageId, t: TaskId): map<StageId, seq<TaskId>> {
    map st | st in lists :: if st == stage then lists[st] + [t] else lists[st]
  }

  /** The operations as plain list edits: append, or take out and insert. */
  function EditWall(w: Wall, op: CardOp): Wall {
    match op
    case Create(t, p) =>
      var stage := WallCreates(w, t, p);
      if stage.None? then w
      else w.(lists := AppendTo(w.lists, stage.value, t), taskBoard := w.taskBoard[t := p.board.value])
    case Move(t, stage, before, _) =>
      if WallMoves(w, t, stage) then w.(lists := MoveInLists(w.lists, t, stage, before)) else w
  }

  function EditAll(w: Wall, ops: seq<CardOp>): Wall
    decreases |ops|
  {
    if ops == [] then w else EditAll(EditWall(w, ops[0]), ops[1..])
  }

  lemma WallGuards(runs: seq<Run>, d: Desk, t: TaskId, p: Patch, stage: StageId)
    ensures Creates(d, t, p, stage) <==> WallCreates(WallOf(runs, d), t, p) == Some(stage)
    ensures CanMove(runs, d, t, stage) <==> WallMoves(WallOf(runs, d), t, stage)
  {}

  /** The tables behind a wall that a creation or a move leaves alone. */
  ghost predicate SameBoards(d: Desk, d': Desk) { d'.boards == d.boards && d'.stages == d.stages }

  lemma SameShelves(d: Desk, d': Desk)
    requires SameBoards(d, d')
    ensures Shelves(d') == Shelves(d) && StageBoards(d') == StageBoards(d)
  {
    forall b ensures FirstOf(d', b, Backlog) == FirstOf(d, b, Backlog) {
      assert StagesOf(d', b, Backlog) == StagesOf(d, b, Backlog);
      assert StagePositions(d') == StagePositions(d);
    }
  }

  lemma CreatedFactsOfTask(runs: seq<Run>, d: Desk, t: TaskId, task: Task)
    requires t !in d.tasks && task.activeRun.None?
    ensures TaskBoards(SetTask(d, t, task)) == TaskBoards(d)[t := task.board]
    ensures LockedTasks(runs, SetTask(d, t, task)) == LockedTasks(runs, d)
  {}

  lemma CreatedWall(runs: seq<Run>, d: Desk, t: TaskId, task: Task)
    requires t !in d.tasks && task.activeRun.None?
    ensures var d' := SetTask(d, t, task);
            WallOf(runs, d') == WallOf(runs, d).(lists := Views(d'), taskBoard := TaskBoards(d)[t := task.board])
  {
    SameShelves(d, SetTask(d, t, task));
    CreatedFactsOfTask(runs, d, t, task);
  }

  lemma CreatedTables(d: Desk, t: TaskId, p: Patch, stage: StageId)
    requires Creates(d, t, p, stage)
    ensures var d' := CreateTask(d, t, p);
            && t in d'.tasks && d' == SetTask(d, t, d'.tasks[t])
            && d'.tasks[t].activeRun.None? && d'.tasks[t].board == p.board.value
  {}

  lemma NotCreated(d: Desk, t: TaskId, p: Patch)
    ensures CreateTask(d, t, p) == d || (t in CreateTask(d, t, p).tasks && Creates(d, t, p, CreateTask(d, t, p).tasks[t].stage))
  {}

  lemma CreatedLists(d: Desk, t: TaskId, p: Patch, stage: StageId)
    requires AllSpaced(d) && OnStages(d) && Creates(d, t, p, stage)
    ensures Views(CreateTask(d, t, p)) == AppendTo(Views(d), stage, t)
  {
    CreateKeepsSpacing(d, t, p);
    forall st | st in d.stages
      ensures View(CreateTask(d, t, p), st) == if st == stage then View(d, st) + [t] else View(d, st)
    {
      CreateIsAppend(d, t, p, stage, st);
    }
    AppendedViews(d, CreateTask(d, t, p), t, stage);
  }

  lemma AppendedViews(d: Desk, d': Desk, t: TaskId, stage: StageId)
    requires d'.stages == d.stages
    requires forall st | st in d.stages :: View(d', st) == if st == stage then View(d, st) + [t] else View(d, st)
    ensures Views(d') == AppendTo(Views(d), stage, t)
  {}

  lemma CreatedWallIs(runs: seq<Run>, d: Desk, t: TaskId, task: Task, p: Patch, stage: StageId)
    requires t !in d.tasks && task.activeRun.None? && p.board == Some(task.board)
    requires WallCreates(WallOf(runs, d), t, p) == Some(stage)
    requires Views(SetTask(d, t, task)) == AppendTo(Views(d), stage, t)
    ensures WallOf(runs, SetTask(d, t, task)) == EditWall(WallOf(runs, d), Create(t, p))
  {
    CreatedWall(runs, d, t, task);
  }

  lemma WallAfterCreate(runs: seq<Run>, d: Desk, t: TaskId, p: Patch, stage: StageId)
    requires AllSpaced(d) && OnStages(d) && Creates(d, t, p, stage)
    ensures WallOf(runs, CreateTask(d, t, p)) == EditWall(WallOf(runs, d), Create(t, p))
  {
    WallGuards(runs, d, t, p, stage);
    CreatedTables(d, t, p, stage);
    CreatedLists(d, t, p, stage);
    CreatedWallIs(runs, d, t, CreateTask(d, t, p).tasks[t], p, stage);
  }

  lemma NotCreatedWall(runs: seq<Run>, d: Desk, t: TaskId, p: Patch)
    requires WallCreates(WallOf(runs, d), t, p).None?
    ensures CreateTask(d, t, p) == d && EditWall(WallOf(runs, d), Create(t, p)) == WallOf(runs, d)
  {
    forall st: StageId ensures !Creates(d, t, p, st) { WallGuards(runs, d, t, p, st); }
    NotCreated(d, t, p);
  }

  lemma MovedTables(runs: seq<Run>, d: Desk, t: TaskId, stage: StageId, before: Option<TaskId>, owner: Option<Option<AgentId>>)
    requires CanMove(runs, d, t, stage)
    ensures var d' := MoveTask(runs, d, t, stage, before, owner);
            && SameBoards(d, d') && d'.tasks.Keys == d.tasks.Keys
            && forall x | x in d.tasks :: d'.tasks[x].board == d.tasks[x].board && d'.tasks[x].activeRun == d.tasks[x].activeRun
  {
    MovedTasks(runs, d, t, stage, before, owner);
  }

  lemma WallAfterMove(runs: seq<Run>, d: Desk, t: TaskId, stage: StageId, before: Option<TaskId>, owner: Option<Option<AgentId>>)
    requires AllSpaced(d) && OnStages(d) && CanMove(runs, d, t, stage)
    ensures WallOf(runs, MoveTask(runs, d, t, stage, before, owner)) == EditWall(WallOf(runs, d), Move(t, stage, before, owner))
  {
    var d' := MoveTask(runs, d, t, stage, before, owner);
    MovedTables(runs, d, t, stage, before, owner);
    MoveIsListEdit(runs, d, t, stage, before, owner, Views(d));
    MovedWall(runs, d, d');
    MovedWallIs(runs, d, d', t, stage, before, owner);
  }

  lemma MovedWallIs(runs: seq<Run>, d: Desk, d': Desk, t: TaskId, stage: StageId, before: Option<TaskId>, owner: Option<Option<AgentId>>)
    requires CanMove(runs, d, t, stage) && Views(d') == MoveInLists(Views(d), t, stage, before)
    requires WallOf(runs, d') == WallOf(runs, d).(lists := Views(d'))
    ensures WallOf(runs, d') == EditWall(WallOf(runs, d), Move(t, stage, before, owner))
  {
    WallGuards(runs, d, t, Patch(0, None, None, None, None, None, None, None), stage);
  }

  lemma NotMovedWall(runs: seq<Run>, d: Desk, t: TaskId, stage: StageId, before: Option<TaskId>, owner: Option<Option<AgentId>>)
    requires !CanMove(runs, d, t, stage)
    ensures MoveTask(runs, d, t, stage, before, owner) == d
    ensures EditWall(WallOf(runs, d), Move(t, stage, before, owner)) == WallOf(runs, d)
  {
    WallGuards(runs, d, t, Patch(0, None, None, None, None, None, None, None), stage);
  }

  lemma MovedWall(runs: seq<Run>, d: Desk, d': Desk)
    requires SameBoards(d, d') && d'.tasks.Keys == d.tasks.Keys
    requires forall t | t in d.tasks :: d'.tasks[t].board == d.tasks[t].board && d'.tasks[t].activeRun == d.tasks[t].activeRun
    ensures WallOf(runs, d') == WallOf(runs, d).(lists := Views(d'))
  {
    SameShelves(d, d');
    assert TaskBoards(d') == TaskBoards(d);
    assert LockedTasks(runs, d') == LockedTasks(runs, d);
  }

  lemma ApplyIsWallEdit(runs: seq<Run>, d: Desk, op: CardOp)
    requires AllSpaced(d) && OnStages(d)
    ensures WallOf(runs, Apply(runs, d, op)) == EditWall(WallOf(runs, d), op)
  {
    match op
    case Create(t, p) =>
      var stage := WallCreates(WallOf(runs, d), t, p);
      if stage.Some? {
        WallGuards(runs, d, t, p, stage.value);
        WallAfterCreate(runs, d, t, p, stage.value);
      } else {
        NotCreatedWall(runs, d, t, p);
      }
    case Move(t, stage, before, owner) =>
      if CanMove(runs, d, t, stage) {
        WallAfterMove(runs, d, t, stage, before, owner);
      } else {
        NotMovedWall(runs, d, t, stage, before, owner);
      }
  }

  /** Any sequence of creations and moves from well-spaced stages behaves like edits of plain lists,
      carried out without looking at a single position. */
  lemma {:induction false} CardsRefineLists(runs: seq<Run>, d: Desk, ops: seq<CardOp>)
    requires AllSpaced(d) && OnStages(d)
    ensures WallOf(runs, ApplyAll(runs, d, ops)) == EditAll(WallOf(runs, d), ops)
    ensures AllSpaced(ApplyAll(runs, d, ops))
    decreases |ops|
  {
    if ops != [] {
      ApplyKeepsSpacing(runs, d, ops[0]);
      ApplyIsWallEdit(runs, d, ops[0]);
      CardsRefineLists(runs, Apply(runs, d, ops[0]), ops[1..]);
    }
  }
}
