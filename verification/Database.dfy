/** The tables, updated in place, and the two stores closest to them: `Store` for runs and the part of
    `TaskStore` that listens to it. Every method is tied to the function that specifies it. */
module Database {
  import opened Rows
  import opened Runs
  import opened Scheduler
  import opened Pump
  import opened Desk
  import opened Links
  import opened Recovery

  class Tables {
    var runs: seq<Run>
    var startedAt: map<RunId, nat>
    var nextEvent: nat
    var snapshots: map<RunId, Profile>
    var profiles: map<AgentId, Profile>
    var machines: map<MachineId, Machine>
    var transfers: seq<Transfer>
    var boards: map<BoardId, Board>
    var stages: map<StageId, Stage>
    var tasks: map<TaskId, Task>
    var links: map<RunId, Link>
    var teams: map<TeamId, Team>

    constructor ()
      ensures runs == [] && startedAt == map[] && nextEvent == 0 && snapshots == map[] && profiles == map[]
      ensures machines == map[] && transfers == [] && fresh(this)
      ensures Board() == Desk(map[], map[], map[], map[], map[])
    {
      runs, startedAt, nextEvent, snapshots, profiles, machines, transfers := [], map[], 0, map[], map[], map[], [];
      boards, stages, tasks, links, teams := map[], map[], map[], map[], map[];
    }

    /** The board tables. */
    function Board(): Desk
      reads this`boards, this`stages, this`tasks, this`links, this`teams
    {
      Desk(boards, stages, tasks, links, teams)
    }

    /** The other tables, without the process's own `stopping` and `drafts`. */
    function Rest(): Sched
      reads this`runs, this`startedAt, this`nextEvent, this`snapshots, this`profiles, this`machines, this`transfers
    {
      Sched(runs, startedAt, nextEvent, snapshots, profiles, machines, transfers, {}, map[])
    }
  }

  /** `TaskStore`, as far as it follows the run table. */
  class RunListener {
    const db: Tables

    constructor (db: Tables)
      ensures this.db == db
    {
      this.db := db;
    }

    method OnRun(r: RunId)
      requires r < |db.runs|
      modifies db`tasks
      ensures db.Board() == SyncRun(db.runs, old(db.Board()), r)
    {
      if r !in db.links || db.links[r].task !in db.tasks { return; }
      var t := db.links[r].task;
      var task := db.tasks[t];
      var state := db.runs[r].state;
      if state.Completed? {
        var review := DoneStage(db.Board(), task.board);
        if review.Some? {
          task := task.(stage := review.value, activeRun := None, revision := task.revision + 1);
          db.tasks := db.tasks[t := task];
        }
      } else if state.Failed? || state.Interrupted? || state.Cancelled? {
        task := task.(activeRun := None, revision := task.revision + 1);
        db.tasks := db.tasks[t := task];
      }
    }

    /** `reconcile`: the ended active runs are read first, then the listener is called for each. */
    method Reconcile()
      requires LinkedRows(db.runs, db.Board())
      modifies db`tasks
      ensures db.Board() == Reconciled(db.runs, old(db.Board()))
    {
      var linked := EndedRuns();
      ghost var d := db.Board();
      var i := 0;
      while i < |linked|
        invariant 0 <= i <= |linked| && db.Board() == Replay(db.runs, d, linked[..i])
      {
        assert linked[..i + 1][..i] == linked[..i] && linked[i] in linked;
        OnRun(linked[i]);
        i := i + 1;
      }
      assert linked[..i] == linked;
      ReplayIsReconciled(db.runs, d, linked);
    }

    /** The active runs of tasks that have ended, in any order. */
    method EndedRuns() returns (linked: seq<RunId>)
      requires LinkedRows(db.runs, db.Board())
      ensures ListsEnded(db.runs, db.Board(), linked)
    {
      var ended := set t | t in db.tasks && HasEndedRun(db.runs, db.tasks[t]) :: db.tasks[t].activeRun.value;
      linked := InAnyOrder(ended);
      forall r ensures r in ended <==> EndedRunOf(db.runs, db.Board(), r) {
        if EndedRunOf(db.runs, db.Board(), r) { assert HasEndedRun(db.runs, db.tasks[db.links[r].task]); }
      }
    }

    method InAnyOrder(rows: set<RunId>) returns (listed: seq<RunId>)
      ensures forall r :: r in listed <==> r in rows
      ensures forall i, j | 0 <= i < j < |listed| :: listed[i] != listed[j]
    {
      listed := [];
      var rest := rows;
      while rest != {}
        invariant rest <= rows && forall r :: r in listed <==> r in rows && r !in rest
        invariant forall i, j | 0 <= i < j < |listed| :: listed[i] != listed[j]
        decreases |rest|
      {
        var r :| r in rest;
        listed := listed + [r];
        rest := rest - {r};
      }
    }
  }

  /** The run has ended and its task still calls it active. */
  ghost predicate EndedRunOf(runs: seq<Run>, d: Desk, r: RunId) {
    r in d.links && d.links[r].task in d.tasks && d.tasks[d.links[r].task].activeRun == Some(r) && r < |runs| && runs[r].state.Terminal()
  }

  ghost predicate ListsEnded(runs: seq<Run>, d: Desk, linked: seq<RunId>) {
    && (forall r :: r in linked <==> EndedRunOf(runs, d, r))
    && forall i, j | 0 <= i < j < |linked| :: linked[i] != linked[j]
  }

  /** The listener called for one run after the other. */
  ghost function Replay(runs: seq<Run>, d: Desk, linked: seq<RunId>): Desk {
    if linked == [] then d
    else
      var n := |linked| - 1;
      if linked[n] < |runs| then SyncRun(runs, Replay(runs, d, linked[..n]), linked[n]) else Replay(runs, d, linked[..n])
  }

  lemma {:induction false} ReplaySettles(runs: seq<Run>, d: Desk, linked: seq<RunId>)
    requires forall r | r in linked :: EndedRunOf(runs, d, r)
    requires forall i, j | 0 <= i < j < |linked| :: linked[i] != linked[j]
    ensures var d' := Replay(runs, d, linked);
            && d' == d.(tasks := d'.tasks) && d'.tasks.Keys == d.tasks.Keys
            && forall t | t in d.tasks ::
                 if d.tasks[t].activeRun.Some? && d.tasks[t].activeRun.value in linked && Replayable(runs, d, t)
                 then d'.tasks[t] == Settled(runs, d, t) else d'.tasks[t] == d.tasks[t]
  {
    if linked != [] {
      var n := |linked| - 1;
      var r := linked[n];
      assert linked == linked[..n] + [r] && EndedRunOf(runs, d, r) && r !in linked[..n];
      ReplaySettles(runs, d, linked[..n]);
      SyncedAlone(runs, d, Replay(runs, d, linked[..n]), r, d.links[r].task);
    }
  }

  lemma ReplayIsReconciled(runs: seq<Run>, d: Desk, linked: seq<RunId>)
    requires LinkedRows(runs, d) && ListsEnded(runs, d, linked)
    ensures Replay(runs, d, linked) == Reconciled(runs, d)
  {
    var d' := Replay(runs, d, linked);
    ReplaySettles(runs, d, linked);
    forall t | t in d.tasks ensures t in Reconciled(runs, d).tasks && Reconciled(runs, d).tasks[t] == d'.tasks[t] {
      SettledIsReconciled(runs, d, t);
      if HasEndedRun(runs, d.tasks[t]) { assert EndedRunOf(runs, d, d.tasks[t].activeRun.value); }
    }
    assert Reconciled(runs, d).tasks == d'.tasks;
  }

  /** The task's active run is its own and has ended. */
  ghost predicate Replayable(runs: seq<Run>, d: Desk, t: TaskId) {
    t in d.tasks && HasEndedRun(runs, d.tasks[t])
    && d.tasks[t].activeRun.value in d.links && d.links[d.tasks[t].activeRun.value].task == t
  }

  /** The task as its ended run leaves it. */
  ghost function Settled(runs: seq<Run>, d: Desk, t: TaskId): Task
    requires Replayable(runs, d, t)
  {
    SyncRun(runs, d, d.tasks[t].activeRun.value).tasks[t]
  }

  lemma SettledIsReconciled(runs: seq<Run>, d: Desk, t: TaskId)
    requires t in d.tasks
    ensures t in Reconciled(runs, d).tasks
    ensures Replayable(runs, d, t) ==> Reconciled(runs, d).tasks[t] == Settled(runs, d, t)
    ensures !HasEndedRun(runs, d.tasks[t]) ==> Reconciled(runs, d).tasks[t] == d.tasks[t]
  {}

  /** The listener changes the one task of its run, and reads only that task and the boards. */
  lemma SyncedAlone(runs: seq<Run>, d: Desk, before: Desk, r: RunId, t: TaskId)
    requires r < |runs| && r in d.links && d.links[r].task == t && t in d.tasks
    requires before == d.(tasks := before.tasks) && t in before.tasks && before.tasks[t] == d.tasks[t]
    ensures var d' := SyncRun(runs, before, r);
            && d' == before.(tasks := d'.tasks) && d'.tasks.Keys == before.tasks.Keys
            && (forall x | x in before.tasks && x != t :: d'.tasks[x] == before.tasks[x])
            && t in SyncRun(runs, d, r).tasks && d'.tasks[t] == SyncRun(runs, d, r).tasks[t]
  {
    SameBoardsSameDoneStage(d, before, d.tasks[t].board);
  }

  /** The run table. */
  class Store {
    const db: Tables
    const listener: RunListener

    constructor (db: Tables, listener: RunListener)
      requires listener.db == db
      ensures this.db == db && this.listener == listener
    {
      this.db, this.listener := db, listener;
    }

    predicate Valid() { listener.db == db }

    /** The row first, then the listener. */
    method SetRun(r: RunId, state: RunState)
      requires Valid() && r < |db.runs|
      modifies db`runs, db`tasks
      ensures db.runs == SetState(old(db.runs), r, state)
      ensures db.Board() == AfterWrite(old(db.runs), old(db.Board()), r, state)
    {
      db.runs := db.runs[r := db.runs[r].(state := state)];
      listener.OnRun(r);
    }

    method AgentIsBusy(agent: AgentId) returns (busy: bool)
      ensures busy <==> AgentBusy(db.runs, agent)
    {
      var r := 0;
      while r < |db.runs|
        invariant 0 <= r <= |db.runs|
        invariant forall q: RunId | q < r :: !(db.runs[q].agent == agent && db.runs[q].state.Active())
      {
        if db.runs[r].agent == agent && db.runs[r].state.Active() { return true; }
        r := r + 1;
      }
      busy := false;
    }

    /** `queued(limit)`: the oldest queued runs, at most `limit` of them. */
    method Queued(limit: nat) returns (rows: seq<RunId>)
      ensures |rows| == if |QueuedRuns(db.runs)| < limit then |QueuedRuns(db.runs)| else limit
      ensures forall i, j | 0 <= i < j < |rows| :: rows[i] < rows[j]
      ensures forall r | r in rows :: r in QueuedRuns(db.runs)
      ensures forall r, q | r in rows && q in QueuedRuns(db.runs) && q !in rows :: r < q
    {
      rows := [];
      var r := 0;
      assert QueuedBetween(db.runs, 0, 0) == {};
      while r < |db.runs| && |rows| < limit
        invariant 0 <= r <= |db.runs| && |rows| <= limit
        invariant |rows| == |QueuedBetween(db.runs, 0, r)|
        invariant forall i | 0 <= i < |rows| :: rows[i] < r
        invariant forall i, j | 0 <= i < j < |rows| :: rows[i] < rows[j]
        invariant forall q :: q in rows <==> q in QueuedBetween(db.runs, 0, r)
      {
        assert QueuedBetween(db.runs, 0, r + 1) == QueuedBetween(db.runs, 0, r) + if db.runs[r].state.Queued? then {r} else {};
        if db.runs[r].state.Queued? { rows := rows + [r]; }
        r := r + 1;
      }
      assert QueuedBetween(db.runs, 0, |db.runs|) == QueuedRuns(db.runs);
      assert QueuedBetween(db.runs, 0, r) <= QueuedRuns(db.runs);
      Cardinality(QueuedBetween(db.runs, 0, r), QueuedRuns(db.runs));
    }

    /** Opening the database interrupts every active run. */
    method RecoverActive()
      modifies db`runs
      ensures |db.runs| == |old(db.runs)|
      ensures forall r: RunId | r < |db.runs| ::
                db.runs[r] == if old(db.runs)[r].state.Active() then old(db.runs)[r].(state := Interrupted) else old(db.runs)[r]
    {
      var r := 0;
      while r < |db.runs|
        invariant 0 <= r <= |db.runs| == |old(db.runs)|
        invariant forall q: RunId | q < |db.runs| ::
                    db.runs[q] == if q < r && old(db.runs)[q].state.Active() then old(db.runs)[q].(state := Interrupted) else old(db.runs)[q]
      {
        if db.runs[r].state.Active() { db.runs := db.runs[r := db.runs[r].(state := Interrupted)]; }
        r := r + 1;
      }
    }

    /** Opening the boards interrupts every queued run of a task. */
    method RecoverQueued()
      modifies db`runs
      ensures |db.runs| == |old(db.runs)|
      ensures forall r: RunId | r < |db.runs| ::
                db.runs[r] == if old(db.runs)[r].state.Queued? && r in db.links then old(db.runs)[r].(state := Interrupted) else old(db.runs)[r]
    {
      var r := 0;
      while r < |db.runs|
        invariant 0 <= r <= |db.runs| == |old(db.runs)|
        invariant forall q: RunId | q < |db.runs| ::
                    db.runs[q] == if q < r && old(db.runs)[q].state.Queued? && q in db.links
                                  then old(db.runs)[q].(state := Interrupted) else old(db.runs)[q]
      {
        if db.runs[r].state.Queued? && r in db.links { db.runs := db.runs[r := db.runs[r].(state := Interrupted)]; }
        r := r + 1;
      }
    }
  }
}
