/** Tasks and their runs: which run a task calls active, who it belongs to, what is locked while it
    works, and the numbering of attempts. */
module Links {
  import opened Rows
  import opened Runs
  import opened Desk

  /** The active run of a task is one of its own runs, has not ended, and works for the task's owner. */
  ghost predicate ActiveIsLinked(runs: seq<Run>, d: Desk) {
    forall t | t in d.tasks && d.tasks[t].activeRun.Some? ::
      var r := d.tasks[t].activeRun.value;
      && r < |runs| && r in d.links && d.links[r].task == t
      && !runs[r].state.Terminal() && d.tasks[t].owner == Some(runs[r].agent)
  }

  /** Every run of a task that has not ended is the task's active run. */
  ghost predicate LiveIsActive(runs: seq<Run>, d: Desk) {
    forall r | r in d.links ::
      && r < |runs| && d.links[r].task in d.tasks
      && (!runs[r].state.Terminal() ==> d.tasks[d.links[r].task].activeRun == Some(r))
  }

  ghost predicate LinkInv(runs: seq<Run>, d: Desk) { ActiveIsLinked(runs, d) && LiveIsActive(runs, d) }

  /** So a task has at most one run that has not ended, and calls it active exactly then. */
  lemma ActiveRunIsTheOneLiveRun(runs: seq<Run>, d: Desk, t: TaskId, r: RunId)
    requires LinkInv(runs, d) && t in d.tasks
    ensures d.tasks[t].activeRun == Some(r) <==> r in LinksOf(d.links, t) && r < |runs| && !runs[r].state.Terminal()
  {}

  // ----- operations that leave runs alone -----

  ghost predicate TaskKept(runs: seq<Run>, a: Task, b: Task) {
    b.activeRun == a.activeRun && (Locked(runs, a) ==> SameLockedFields(a, b))
  }

  /** No operation of this kind touches a link, forgets a task, or changes what a running task locks. */
  ghost predicate KeepsLocked(runs: seq<Run>, d: Desk, d': Desk) {
    && d'.links == d.links
    && (forall t | t in d.tasks :: t in d'.tasks && TaskKept(runs, d.tasks[t], d'.tasks[t]))
    && (forall t | t in d'.tasks && t !in d.tasks :: d'.tasks[t].activeRun.None?)
  }

  lemma KeepsLockedKeepsLinkInv(runs: seq<Run>, d: Desk, d': Desk)
    requires LinkInv(runs, d) && KeepsLocked(runs, d, d')
    ensures LinkInv(runs, d')
  {
    forall t | t in d'.tasks && d'.tasks[t].activeRun.Some? ensures t in d.tasks && SameLockedFields(d.tasks[t], d'.tasks[t]) {
      assert t in d.tasks;
      assert TaskKept(runs, d.tasks[t], d'.tasks[t]);
    }
  }

  lemma UpdateKeepsLocked(runs: seq<Run>, d: Desk, t: TaskId, p: Patch)
    ensures KeepsLocked(runs, d, UpdateTask(runs, d, t, p))
  {}

  lemma ApproveKeepsLocked(runs: seq<Run>, d: Desk, t: TaskId, revision: Option<nat>)
    ensures KeepsLocked(runs, d, Approve(d, t, revision))
  {}

  lemma CreateKeepsLocked(runs: seq<Run>, d: Desk, t: TaskId, p: Patch)
    ensures KeepsLocked(runs, d, CreateTask(d, t, p))
  {}

  lemma MoveKeepsLocked(runs: seq<Run>, d: Desk, t: TaskId, stage: StageId, before: Option<TaskId>,
                        owner: Option<Option<AgentId>>)
    ensures KeepsLocked(runs, d, MoveTask(runs, d, t, stage, before, owner))
  {
    if CanMove(runs, d, t, stage) { MovedTasks(runs, d, t, stage, before, owner); }
  }

  lemma RemoveStageKeepsLocked(runs: seq<Run>, d: Desk, st: StageId, to: Option<StageId>)
    ensures KeepsLocked(runs, d, RemoveStage(d, st, to))
  {}

  lemma PlainStageEditsKeepLocked(runs: seq<Run>, d: Desk, d': Desk)
    requires d'.tasks == d.tasks && d'.links == d.links
    ensures KeepsLocked(runs, d, d')
  {}

  // ----- deletion -----

  lemma DeletionKeepsLinkInv(runs: seq<Run>, d: Desk, gone: set<TaskId>)
    requires LinkInv(runs, d)
    ensures LinkInv(runs, RemoveTasks(d, gone))
  {}

  /** Deleting a board or a card never takes a running task with it. */
  lemma DeletionSparesRunning(runs: seq<Run>, d: Desk, b: BoardId, t: TaskId, q: TaskId)
    requires LinkInv(runs, d) && q in d.tasks && Locked(runs, d.tasks[q])
    ensures LinkInv(runs, DeleteTask(d, t)) && q in DeleteTask(d, t).tasks && DeleteTask(d, t).tasks[q] == d.tasks[q]
    ensures LinkInv(runs, DeleteBoard(runs, d, b)) && q in DeleteBoard(runs, d, b).tasks
            && DeleteBoard(runs, d, b).tasks[q] == d.tasks[q]
  {
    DeletionKeepsLinkInv(runs, d, {t});
    DeletionKeepsLinkInv(runs, d, BoardTasks(d, b));
  }

  // ----- run writes -----

  /** A run's state is written and the listener brings its task along. */
  function AfterWrite(runs: seq<Run>, d: Desk, r: RunId, state: RunState): Desk
    requires r < |runs|
  {
    SyncRun(SetState(runs, r, state), d, r)
  }

  /** The guard under which a state write leaves tasks and runs consistent: a live state only for a
      live run; an end only for the task's current run, or when the task has none; but a completion
      the board has no stage for leaves the task as it is, so the run must not be its current one. */
  predicate WriteFits(runs: seq<Run>, d: Desk, r: RunId, state: RunState)
    requires r < |runs|
  {
    r in d.links && d.links[r].task in d.tasks ==>
      var task := d.tasks[d.links[r].task];
      if !state.Terminal() then !runs[r].state.Terminal()
      else if state.Completed? && DoneStage(d, task.board).None? then task.activeRun != Some(r)
      else task.activeRun == None || task.activeRun == Some(r)
  }

  lemma FittingWriteKeepsLinkInv(runs: seq<Run>, d: Desk, r: RunId, state: RunState)
    requires LinkInv(runs, d) && r < |runs| && WriteFits(runs, d, r, state)
    ensures LinkInv(SetState(runs, r, state), AfterWrite(runs, d, r, state))
  {
    var runs', d' := SetState(runs, r, state), AfterWrite(runs, d, r, state);
    if r !in d.links { assert forall t | t in d.tasks :: d.tasks[t].activeRun != Some(r); }
  }

  /** Exactly the writes that fit keep the link between tasks and runs. */
  lemma WriteKeepsLinkInvIff(runs: seq<Run>, d: Desk, r: RunId, state: RunState)
    requires LinkInv(runs, d) && r < |runs|
    ensures LinkInv(SetState(runs, r, state), AfterWrite(runs, d, r, state)) <==> WriteFits(runs, d, r, state)
  {
    var runs', d' := SetState(runs, r, state), AfterWrite(runs, d, r, state);
    if WriteFits(runs, d, r, state) {
      FittingWriteKeepsLinkInv(runs, d, r, state);
    } else {
      var t := d.links[r].task;
      var active := d.tasks[t].activeRun;
      if state.Terminal() && active.Some? && active != Some(r) {
        assert active.value in d'.links && d'.links[active.value].task == t;
        assert !runs'[active.value].state.Terminal() && d'.tasks[t].activeRun == None;
      }
    }
  }

  /** One task, its first attempt cancelled and its second attempt queued. */
  ghost function Restarted(): (seq<Run>, Desk) {
    ([Run(0, NoParent, 0, Cancelled), Run(0, NoParent, 0, Queued)],
     Desk(map[0 := Board(false, 1, None, None, None)], map[0 := Stage(0, InProgress, 0.0), 1 := Stage(0, Review, 1.0)],
          map[0 := Task(0, 0, None, Some(0), {}, 0.0, false, 1, Some(1))],
          map[0 := Link(0, 1, 5), 1 := Link(0, 2, 6)], map[]))
  }

  /** Stopping a run writes its end once for the request and once more when its gateway gives up. If
      the task was started again in between, the second write detaches the new attempt: the task
      looks idle while its run is still queued. */
  lemma SecondEndDetachesNewAttempt()
    ensures var (runs, d) := Restarted();
            && LinkInv(runs, d)
            && AfterWrite(runs, d, 0, Cancelled).tasks[0].activeRun == None
            && !LinkInv(SetState(runs, 0, Cancelled), AfterWrite(runs, d, 0, Cancelled))
  {
    var (runs, d) := Restarted();
    WriteKeepsLinkInvIff(runs, d, 0, Cancelled);
  }

  /** One running task on a board without a stage for completed work. */
  ghost function WithoutReview(): (seq<Run>, Desk) {
    ([Run(0, NoParent, 0, Running)],
     Desk(map[0 := Board(false, 1, None, None, None)], map[0 := Stage(0, InProgress, 0.0)],
          map[0 := Task(0, 0, None, Some(0), {}, 0.0, false, 1, Some(0))], map[0 := Link(0, 1, 5)], map[]))
  }

  /** The completed run stays the task's active run. */
  lemma CompletionWithoutStageStays(runs: seq<Run>, d: Desk)
    requires (runs, d) == WithoutReview()
    ensures LinkInv(runs, d) && AfterWrite(runs, d, 0, Completed) == d
    ensures !LinkInv(SetState(runs, 0, Completed), AfterWrite(runs, d, 0, Completed))
  {
    assert StagesOf(d, 0, Review) == {};
    assert DoneStage(d, 0) == None;
    WriteKeepsLinkInvIff(runs, d, 0, Completed);
  }

  /** A late question to the first, cancelled attempt makes the task have two live runs. */
  lemma WokenAttemptIsSecond(runs: seq<Run>, d: Desk)
    requires (runs, d) == Restarted()
    ensures LinkInv(runs, d) && !LinkInv(SetState(runs, 0, WaitingInput), AfterWrite(runs, d, 0, WaitingInput))
  {
    WriteKeepsLinkInvIff(runs, d, 0, WaitingInput);
  }

  // ----- starting -----

  /** Starting a task keeps the links: the new run works for the owner, and nothing else was live. */
  lemma StartKeepsLinkInv(runs: seq<Run>, d: Desk, t: TaskId, key: nat, revision: Option<nat>, run: Run)
    requires LinkInv(runs, d) && CheckStart(runs, d, t, key, revision).Go? && run.state.Queued?
    requires run.agent == CheckStart(runs, d, t, key, revision).agent
    ensures LinkInv(runs + [run], LinkRun(d, t, key, |runs|, CheckStart(runs, d, t, key, revision).stage))
  {
    var stage := CheckStart(runs, d, t, key, revision).stage;
    var d' := LinkRun(d, t, key, |runs|, stage);
    forall r | r in d'.links && !(runs + [run])[r].state.Terminal() ensures d'.tasks[d'.links[r].task].activeRun == Some(r) {
      if r != |runs| { assert d.tasks[d.links[r].task].activeRun == Some(r); }
    }
  }

  // ----- attempts and keys -----

  ghost function OneTo(n: nat): (s: set<nat>)
    ensures forall k: nat :: k in s <==> 1 <= k <= n
  {
    if n == 0 then {} else OneTo(n - 1) + {n}
  }

  /** The task's n runs are its attempts 1 to n. */
  ghost predicate Gapless(links: map<RunId, Link>, t: TaskId) {
    Attempts(links, t) == OneTo(|LinksOf(links, t)|)
  }

  /** No two runs of a task share an attempt or an idempotency key. */
  ghost predicate Unrepeated(links: map<RunId, Link>) {
    forall q, r | q in links && r in links && links[q].task == links[r].task ::
      (links[q].attempt == links[r].attempt ==> q == r) && (links[q].key == links[r].key ==> q == r)
  }

  ghost predicate Numbered(links: map<RunId, Link>) { (forall t: TaskId :: Gapless(links, t)) && Unrepeated(links) }

  lemma NextAttempt(links: map<RunId, Link>, t: TaskId)
    requires Numbered(links)
    ensures MaxOf(Attempts(links, t)) == |LinksOf(links, t)|
  {
    var n := |LinksOf(links, t)|;
    assert Gapless(links, t);
    if n > 0 { assert n in OneTo(n); }
  }

  lemma AttemptsAfterLink(links: map<RunId, Link>, run: RunId, link: Link)
    requires run !in links
    ensures var links' := links[run := link];
            && LinksOf(links', link.task) == LinksOf(links, link.task) + {run}
            && Attempts(links', link.task) == Attempts(links, link.task) + {link.attempt}
  {
    var links', t := links[run := link], link.task;
    forall k ensures k in Attempts(links', t) <==> k in Attempts(links, t) + {link.attempt} {
      if k in Attempts(links, t) {
        var r :| r in links && links[r].task == t && links[r].attempt == k;
        assert r in links' && links'[r] == links[r];
      }
      if k == link.attempt { assert links'[run].attempt == k; }
    }
  }

  lemma OtherLinksUntouched(links: map<RunId, Link>, links': map<RunId, Link>, run: RunId, link: Link, q: TaskId)
    requires run !in links && links' == links[run := link] && q != link.task
    ensures LinksOf(links', q) == LinksOf(links, q) && forall r | r in LinksOf(links, q) :: links'[r] == links[r]
  {}

  lemma GaplessElsewhere(links: map<RunId, Link>, links': map<RunId, Link>, run: RunId, link: Link, q: TaskId)
    requires Gapless(links, q) && run !in links && links' == links[run := link] && q != link.task
    ensures Gapless(links', q)
  {
    OtherLinksUntouched(links, links', run, link, q);
    SameLinksSameAttempts(links, links', q);
  }

  lemma OneMoreElement(s: set<RunId>, s': set<RunId>, x: RunId)
    requires x !in s && s' == s + {x}
    ensures |s'| == |s| + 1
  {}

  lemma GaplessWithNext(links: map<RunId, Link>, links': map<RunId, Link>, run: RunId, link: Link)
    requires Gapless(links, link.task) && run !in links && links' == links[run := link]
    requires link.attempt == |LinksOf(links, link.task)| + 1
    ensures Gapless(links', link.task)
  {
    var n := |LinksOf(links, link.task)|;
    AttemptsAfterLink(links, run, link);
    OneMoreElement(LinksOf(links, link.task), LinksOf(links', link.task), run);
    OneMore(n);
    calc {
      Attempts(links', link.task);
      Attempts(links, link.task) + {n + 1};
      OneTo(n) + {n + 1};
      OneTo(n + 1);
    }
  }

  lemma GaplessAfterLink(links: map<RunId, Link>, run: RunId, link: Link, q: TaskId)
    requires Gapless(links, q) && run !in links
    requires q == link.task ==> link.attempt == |LinksOf(links, q)| + 1
    ensures Gapless(links[run := link], q)
  {
    if q == link.task {
      GaplessWithNext(links, links[run := link], run, link);
    } else {
      GaplessElsewhere(links, links[run := link], run, link, q);
    }
  }

  lemma OneMore(n: nat)
    ensures OneTo(n + 1) == OneTo(n) + {n + 1}
  {}

  lemma UnrepeatedAfterLink(links: map<RunId, Link>, run: RunId, link: Link)
    requires Unrepeated(links) && run !in links
    requires forall r | r in links && links[r].task == link.task :: links[r].key != link.key && links[r].attempt != link.attempt
    ensures Unrepeated(links[run := link])
  {}

  lemma NumberedAfterLink(links: map<RunId, Link>, run: RunId, link: Link)
    requires Numbered(links) && run !in links && link.attempt == |LinksOf(links, link.task)| + 1
    requires forall r | r in links && links[r].task == link.task :: links[r].key != link.key
    ensures Numbered(links[run := link])
  {
    var links' := links[run := link];
    forall q: TaskId ensures Gapless(links', q) {
      assert Gapless(links, q);
      GaplessAfterLink(links, run, link, q);
    }
    assert Gapless(links, link.task);
    forall r | r in links && links[r].task == link.task ensures links[r].attempt != link.attempt {
      assert links[r].attempt in Attempts(links, link.task);
    }
    UnrepeatedAfterLink(links, run, link);
  }

  lemma LinkRunKeepsNumbering(d: Desk, t: TaskId, key: nat, run: RunId, stage: StageId)
    requires Numbered(d.links) && t in d.tasks && run !in d.links && KeyHolders(d, t, key) == {}
    ensures Numbered(LinkRun(d, t, key, run, stage).links)
    ensures LinkRun(d, t, key, run, stage).links[run].attempt == |LinksOf(d.links, t)| + 1
  {
    NextAttempt(d.links, t);
    forall r | r in d.links && d.links[r].task == t ensures d.links[r].key != key {
      assert r !in KeyHolders(d, t, key);
    }
    NumberedAfterLink(d.links, run, Link(t, |LinksOf(d.links, t)| + 1, key));
  }

  lemma SameLinksSameAttempts(links: map<RunId, Link>, links': map<RunId, Link>, t: TaskId)
    requires forall r :: r in LinksOf(links, t) <==> r in LinksOf(links', t)
    requires forall r | r in LinksOf(links, t) :: links'[r] == links[r]
    ensures LinksOf(links', t) == LinksOf(links, t) && Attempts(links', t) == Attempts(links, t)
  {
    forall k ensures k in Attempts(links', t) <==> k in Attempts(links, t) {
      if k in Attempts(links', t) {
        var r :| r in links' && links'[r].task == t && links'[r].attempt == k;
        assert r in LinksOf(links', t);
      }
      if k in Attempts(links, t) {
        var r :| r in links && links[r].task == t && links[r].attempt == k;
        assert r in LinksOf(links, t);
      }
    }
  }

  lemma DeletionKeepsNumbering(d: Desk, gone: set<TaskId>)
    requires Numbered(d.links)
    ensures Numbered(RemoveTasks(d, gone).links)
  {
    var links' := RemoveTasks(d, gone).links;
    forall t: TaskId ensures Gapless(links', t) {
      if t in gone {
        assert LinksOf(links', t) == {} && Attempts(links', t) == {};
      } else {
        assert Gapless(d.links, t);
        SameLinksSameAttempts(d.links, links', t);
      }
    }
  }

  /** Once a start has been linked under its key, starting again with that key is a repetition, as
      long as the link is there, whatever happened to the task. */
  lemma RepeatedStartIsRecognised(runs: seq<Run>, d: Desk, t: TaskId, key: nat, run: RunId, revision: Option<nat>)
    requires t in d.tasks && run in d.links && d.links[run].task == t && d.links[run].key == key
    ensures CheckStart(runs, d, t, key, revision) == Repeat
    ensures Numbered(d.links) ==> KeyHolders(d, t, key) == {run}
  {
    assert run in KeyHolders(d, t, key);
  }
}
