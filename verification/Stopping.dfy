/** Stopping a run and everything delegated below it, while other handlers go on writing: `stopRunTree`
    of runtime/service.ts as a function of what happens during its waits. */
module Stopping {
  import opened Rows
  import opened Runs
  import opened Desk
  import opened Links

  /** The run table and the boards that follow it. */
  datatype Tables2 = Written(runs: seq<Run>, d: Desk)

  /** `setRun` with its listener, for an existing run. Nothing is ever set back to queued. */
  function Write(w: Tables2, r: RunId, state: RunState): (w': Tables2)
    ensures |w'.runs| == |w.runs|
  {
    if r < |w.runs| && !state.Queued? then Written(SetState(w.runs, r, state), AfterWrite(w.runs, w.d, r, state)) else w
  }

  function WriteAll(w: Tables2, writes: seq<(RunId, RunState)>): (w': Tables2)
    ensures |w'.runs| == |w.runs|
  {
    if writes == [] then w
    else
      var n := |writes| - 1;
      Write(WriteAll(w, writes[..n]), writes[n].0, writes[n].1)
  }

  /** The state of the last write to the run, if there is one. */
  function LastWrite(writes: seq<(RunId, RunState)>, r: RunId): Option<RunState> {
    if writes == [] then None
    else
      var n := |writes| - 1;
      if writes[n].0 == r && !writes[n].1.Queued? then Some(writes[n].1) else LastWrite(writes[..n], r)
  }

  /** Only states differ. */
  ghost predicate SameShape(runs: seq<Run>, runs': seq<Run>) {
    |runs'| == |runs| && forall r: RunId | r < |runs| :: runs'[r] == runs[r].(state := runs'[r].state)
  }

  lemma {:induction false} BelowSameShape(runs: seq<Run>, runs': seq<Run>, r: RunId, q: RunId)
    requires SameShape(runs, runs')
    ensures Below(runs, r, q) <==> Below(runs', r, q)
    decreases q
  {
    if q < |runs| && runs[q].parent.Of? && runs[q].parent.id < q { BelowSameShape(runs, runs', r, runs[q].parent.id); }
  }

  /** After any writes a run has the state of the last write to it, or its old state. */
  lemma {:induction false} LastWriteDecides(w: Tables2, writes: seq<(RunId, RunState)>)
    ensures SameShape(w.runs, WriteAll(w, writes).runs)
    ensures forall q: RunId | q < |w.runs| :: WriteAll(w, writes).runs[q].state ==
              var last := LastWrite(writes, q); if last.Some? then last.value else w.runs[q].state
    decreases |writes|
  {
    if writes != [] { LastWriteDecides(w, writes[..|writes| - 1]); }
  }

  lemma {:induction false} WriteAllJoin(w: Tables2, a: seq<(RunId, RunState)>, b: seq<(RunId, RunState)>)
    ensures WriteAll(w, a + b) == WriteAll(WriteAll(w, a), b)
    decreases |b|
  {
    if b == [] {
      assert a + b == a;
    } else {
      var n := |b| - 1;
      WriteAllJoin(w, a, b[..n]);
      assert (a + b)[..|a + b| - 1] == a + b[..n];
    }
  }

  // ----- stopping one run -----

  /** What other handlers do during one wait: the states they write, and which runs are remote then. */
  datatype Pause = Pause(writes: seq<(RunId, RunState)>, remote: map<RunId, MachineId>)

  /** `sent` says which machine has been sent a stop command for which run. */
  datatype StopState = StopState(w: Tables2, remote: map<RunId, MachineId>, sent: map<RunId, MachineId>)

  predicate Skipped(st: StopState, r: RunId) { r >= |st.w.runs| || st.w.runs[r].state.Terminal() }

  /** The writes made while one local run is stopped: cancelled first, then whatever arrives during the
      wait, then interrupted if its gateway could not be stopped. */
  function StopWrites(r: RunId, gatewayFails: bool, p: Pause): seq<(RunId, RunState)> {
    [(r, Cancelled)] + p.writes + if gatewayFails then [(r, Interrupted)] else []
  }

  /** An ended run is skipped, a remote one gets a command, a local one is cancelled. */
  function StopStep(st: StopState, r: RunId, gatewayFails: bool, p: Pause): StopState {
    if Skipped(st, r) then st
    else if r in st.remote then st.(sent := st.sent[r := st.remote[r]])
    else StopState(WriteAll(st.w, StopWrites(r, gatewayFails, p)), p.remote, st.sent)
  }

  predicate Stopped(st: StopState, r: RunId) { r < |st.w.runs| ==> st.w.runs[r].state.Terminal() || r in st.sent }

  lemma LastOfStopWrites(r: RunId, gatewayFails: bool, p: Pause, q: RunId)
    ensures LastWrite(StopWrites(r, gatewayFails, p), q) ==
            if q == r && gatewayFails then Some(Interrupted)
            else if LastWrite(p.writes, q).Some? then LastWrite(p.writes, q)
            else if q == r then Some(Cancelled) else None
  {
    LastOfCons((r, Cancelled), p.writes, q);
    var head := [(r, Cancelled)] + p.writes;
    if gatewayFails {
      assert (head + [(r, Interrupted)])[..|head|] == head;
    } else {
      assert head + [] == head;
    }
  }

  lemma {:induction false} LastOfCons(x: (RunId, RunState), writes: seq<(RunId, RunState)>, q: RunId)
    ensures LastWrite([x] + writes, q) ==
            if LastWrite(writes, q).Some? then LastWrite(writes, q)
            else if x.0 == q && !x.1.Queued? then Some(x.1) else None
  {
    if writes == [] {
      assert [x] + writes == [x];
    } else {
      var n := |writes| - 1;
      assert ([x] + writes)[..|[x] + writes| - 1] == [x] + writes[..n];
      LastOfCons(x, writes[..n], q);
    }
  }

  /** A stop request leaves its run stopped exactly if the run had ended, is remote, cannot have its gateway
      stopped, or is last written an end, if anything, while the request waits. */
  lemma StopStepStopsIff(st: StopState, r: RunId, gatewayFails: bool, p: Pause)
    requires r < |st.w.runs| && r !in st.sent
    ensures Stopped(StopStep(st, r, gatewayFails, p), r) <==>
              || st.w.runs[r].state.Terminal() || r in st.remote || gatewayFails
              || LastWrite(p.writes, r).None? || LastWrite(p.writes, r).value.Terminal()
  {
    LastWriteDecides(st.w, StopWrites(r, gatewayFails, p));
    LastOfStopWrites(r, gatewayFails, p, r);
  }

  // ----- stopping a tree -----

  function PauseAt(pauses: seq<Pause>, i: nat, remote: map<RunId, MachineId>): Pause {
    if i < |pauses| then pauses[i] else Pause([], remote)
  }

  function StopAll(st: StopState, ids: seq<RunId>, gatewayFails: set<RunId>, pauses: seq<Pause>): StopState {
    if ids == [] then st
    else
      var n := |ids| - 1;
      var before := StopAll(st, ids[..n], gatewayFails, pauses);
      StopStep(before, ids[n], ids[n] in gatewayFails, PauseAt(pauses, n, before.remote))
  }

  /** The request waits for the gateway of this run, so other handlers are heard. */
  predicate Waits(st: StopState, r: RunId) { !Skipped(st, r) && r !in st.remote }

  /** What other handlers write during the waits for the runs from place `k` on, in order. */
  function Heard(st: StopState, ids: seq<RunId>, gatewayFails: set<RunId>, pauses: seq<Pause>, k: nat): seq<(RunId, RunState)> {
    if |ids| <= k then []
    else
      var n := |ids| - 1;
      var before := StopAll(st, ids[..n], gatewayFails, pauses);
      Heard(st, ids[..n], gatewayFails, pauses, k) + if Waits(before, ids[n]) then PauseAt(pauses, n, before.remote).writes else []
  }

  /** A run that is stopped at its turn, by the state it is in then, by a command, or for good. */
  predicate StoppedAtTurn(before: StopState, q: RunId, gatewayFails: bool, p: Pause)
    requires q < |before.w.runs|
  {
    || before.w.runs[q].state.Terminal() || q in before.remote || gatewayFails
    || LastWrite(p.writes, q).None? || LastWrite(p.writes, q).value.Terminal()
  }

  lemma {:induction false} LastOfJoin(a: seq<(RunId, RunState)>, b: seq<(RunId, RunState)>, q: RunId)
    ensures LastWrite(a + b, q) == if LastWrite(b, q).Some? then LastWrite(b, q) else LastWrite(a, q)
    decreases |b|
  {
    if b == [] {
      assert a + b == a;
    } else {
      var n := |b| - 1;
      assert (a + b)[..|a + b| - 1] == a + b[..n];
      LastOfJoin(a, b[..n], q);
    }
  }

  /** Stopping another run changes this one only by what is heard meanwhile. */
  lemma OtherStop(st: StopState, r: RunId, gatewayFails: bool, p: Pause, q: RunId)
    requires q != r && q < |st.w.runs|
    ensures var st' := StopStep(st, r, gatewayFails, p); var last := LastWrite(if Waits(st, r) then p.writes else [], q);
            && |st'.w.runs| == |st.w.runs| && (q in st'.sent <==> q in st.sent)
            && st'.w.runs[q].state == if last.Some? then last.value else st.w.runs[q].state
  {
    LastWriteDecides(st.w, StopWrites(r, gatewayFails, p));
    LastOfStopWrites(r, gatewayFails, p, q);
  }

  /** From `st` to `st'` the run changes only by what was heard. */
  ghost predicate ChangedByHeard(st: StopState, st': StopState, heard: seq<(RunId, RunState)>, q: RunId) {
    && q < |st.w.runs| == |st'.w.runs| && (q in st'.sent <==> q in st.sent)
    && st'.w.runs[q].state == if LastWrite(heard, q).Some? then LastWrite(heard, q).value else st.w.runs[q].state
  }

  lemma OneMoreStop(st: StopState, before: StopState, heard: seq<(RunId, RunState)>, q: RunId, r: RunId, gatewayFails: bool, p: Pause)
    requires ChangedByHeard(st, before, heard, q) && q != r
    ensures ChangedByHeard(st, StopStep(before, r, gatewayFails, p), heard + if Waits(before, r) then p.writes else [], q)
  {
    OtherStop(before, r, gatewayFails, p, q);
    LastOfJoin(heard, if Waits(before, r) then p.writes else [], q);
  }

  /** After its turn a run of the tree changes only by what is heard during the later waits. */
  lemma {:induction false} AfterItsTurn(st: StopState, ids: seq<RunId>, gatewayFails: set<RunId>, pauses: seq<Pause>, k: nat)
    requires Distinct(ids) && k < |ids| && ids[k] < |st.w.runs|
    ensures ChangedByHeard(StopAll(st, ids[..k + 1], gatewayFails, pauses), StopAll(st, ids, gatewayFails, pauses),
                           Heard(st, ids, gatewayFails, pauses, k + 1), ids[k])
    decreases |ids|
  {
    if k + 1 == |ids| {
      assert ids[..k + 1] == ids;
      SameRunCount(st, ids, gatewayFails, pauses);
    } else {
      var n := |ids| - 1;
      var before := StopAll(st, ids[..n], gatewayFails, pauses);
      AfterItsTurn(st, ids[..n], gatewayFails, pauses, k);
      assert ids[..n][..k + 1] == ids[..k + 1];
      OneMoreStop(StopAll(st, ids[..k + 1], gatewayFails, pauses), before, Heard(st, ids[..n], gatewayFails, pauses, k + 1), ids[k],
                  ids[n], ids[n] in gatewayFails, PauseAt(pauses, n, before.remote));
    }
  }

  lemma {:induction false} SameRunCount(st: StopState, ids: seq<RunId>, gatewayFails: set<RunId>, pauses: seq<Pause>)
    ensures |StopAll(st, ids, gatewayFails, pauses).w.runs| == |st.w.runs|
    ensures forall q | q !in ids :: q in StopAll(st, ids, gatewayFails, pauses).sent <==> q in st.sent
    decreases |ids|
  {
    if ids != [] {
      var n := |ids| - 1;
      SameRunCount(st, ids[..n], gatewayFails, pauses);
      assert ids == ids[..n] + [ids[n]];
    }
  }

  /** Whatever other handlers do, the run at place `k` of the tree ends stopped exactly if it is sent a
      command at its turn; or the last write heard for it during the later waits is an end; or none is
      heard and it was stopped at its turn. For the first run, the one the request names, the turn
      comes in the initial state. */
  lemma TreeStopsIff(st: StopState, ids: seq<RunId>, gatewayFails: set<RunId>, pauses: seq<Pause>, k: nat)
    requires Distinct(ids) && k < |ids| && ids[k] < |st.w.runs| && ids[k] !in st.sent
    ensures var q, before := ids[k], StopAll(st, ids[..k], gatewayFails, pauses);
            var p, later := PauseAt(pauses, k, before.remote), LastWrite(Heard(st, ids, gatewayFails, pauses, k + 1), q);
            && q < |before.w.runs| && (k == 0 ==> before == st)
            && (Stopped(StopAll(st, ids, gatewayFails, pauses), q) <==>
                  || (!before.w.runs[q].state.Terminal() && q in before.remote)
                  || (if later.Some? then later.value.Terminal() else StoppedAtTurn(before, q, q in gatewayFails, p)))
  {
    var q, before := ids[k], StopAll(st, ids[..k], gatewayFails, pauses);
    var p := PauseAt(pauses, k, before.remote);
    SameRunCount(st, ids[..k], gatewayFails, pauses);
    assert q !in ids[..k];
    assert ids[..k + 1][..k] == ids[..k] && ids[..k + 1][k] == q;
    StopStepStopsIff(before, q, q in gatewayFails, p);
    AfterItsTurn(st, ids, gatewayFails, pauses, k);
  }

  // ----- interference that revives nothing -----

  /** No active state is written to a run that has ended by then. */
  ghost predicate RevivesNone(w: Tables2, writes: seq<(RunId, RunState)>) {
    forall i | 0 <= i < |writes| && writes[i].0 < |w.runs| && !writes[i].1.Queued? && !writes[i].1.Terminal() ::
      !WriteAll(w, writes[..i]).runs[writes[i].0].state.Terminal()
  }

  lemma {:induction false} EndedStaysEnded(w: Tables2, writes: seq<(RunId, RunState)>)
    requires RevivesNone(w, writes)
    ensures forall q: RunId | q < |w.runs| && w.runs[q].state.Terminal() :: WriteAll(w, writes).runs[q].state.Terminal()
    decreases |writes|
  {
    if writes != [] {
      var n := |writes| - 1;
      assert forall i | 0 <= i < n :: writes[..n][i] == writes[i] && writes[..n][..i] == writes[..i];
      EndedStaysEnded(w, writes[..n]);
      assert writes[n] == writes[|writes| - 1];
    }
  }

  ghost predicate QuietStep(st: StopState, r: RunId, p: Pause) {
    Skipped(st, r) || r in st.remote || RevivesNone(Write(st.w, r, Cancelled), p.writes)
  }

  /** During each wait that takes place nothing is revived. */
  ghost predicate QuietPauses(st: StopState, ids: seq<RunId>, gatewayFails: set<RunId>, pauses: seq<Pause>) {
    ids == [] ||
    var n := |ids| - 1;
    var before := StopAll(st, ids[..n], gatewayFails, pauses);
    QuietPauses(st, ids[..n], gatewayFails, pauses) && QuietStep(before, ids[n], PauseAt(pauses, n, before.remote))
  }

  lemma QuietStopStep(st: StopState, r: RunId, gatewayFails: bool, p: Pause)
    requires QuietStep(st, r, p)
    ensures var st' := StopStep(st, r, gatewayFails, p);
            Stopped(st', r) && |st'.w.runs| == |st.w.runs| && forall q | Stopped(st, q) :: Stopped(st', q)
  {
    if !Skipped(st, r) && r !in st.remote {
      var cancelled := Write(st.w, r, Cancelled);
      var head := [(r, Cancelled)];
      assert WriteAll(st.w, head[..0]) == st.w && WriteAll(st.w, head) == cancelled;
      WriteAllJoin(st.w, head, p.writes);
      EndedStaysEnded(cancelled, p.writes);
      var heard := head + p.writes;
      if gatewayFails {
        assert (heard + [(r, Interrupted)])[..|heard|] == heard;
      } else {
        assert heard + [] == heard;
      }
    }
  }

  /** Then every run of the tree ends stopped. */
  lemma {:induction false} QuietTreeStops(st: StopState, ids: seq<RunId>, gatewayFails: set<RunId>, pauses: seq<Pause>)
    requires QuietPauses(st, ids, gatewayFails, pauses)
    ensures var st' := StopAll(st, ids, gatewayFails, pauses);
            |st'.w.runs| == |st.w.runs| && (forall q | q in ids || Stopped(st, q) :: Stopped(st', q))
    decreases |ids|
  {
    if ids != [] {
      var n := |ids| - 1;
      QuietTreeStops(st, ids[..n], gatewayFails, pauses);
      var before := StopAll(st, ids[..n], gatewayFails, pauses);
      QuietStopStep(before, ids[n], ids[n] in gatewayFails, PauseAt(pauses, n, before.remote));
      assert ids == ids[..n] + [ids[n]];
    }
  }

  /** Without interference exactly the local runs of the tree that had not ended are cancelled, or
      interrupted when their gateway cannot be stopped; all other rows stay as they are. */
  lemma {:induction false} UndisturbedStop(st: StopState, ids: seq<RunId>, gatewayFails: set<RunId>)
    ensures var st' := StopAll(st, ids, gatewayFails, []);
            && st'.remote == st.remote && |st'.w.runs| == |st.w.runs|
            && forall q: RunId | q < |st.w.runs| :: st'.w.runs[q] ==
                 if q in ids && q !in st.remote && !st.w.runs[q].state.Terminal()
                 then st.w.runs[q].(state := if q in gatewayFails then Interrupted else Cancelled) else st.w.runs[q]
    decreases |ids|
  {
    if ids != [] {
      var n := |ids| - 1;
      UndisturbedStop(st, ids[..n], gatewayFails);
      UndisturbedStep(StopAll(st, ids[..n], gatewayFails, []), ids[n], ids[n] in gatewayFails);
      assert ids == ids[..n] + [ids[n]];
    }
  }

  lemma UndisturbedStep(st: StopState, r: RunId, gatewayFails: bool)
    ensures var st' := StopStep(st, r, gatewayFails, Pause([], st.remote));
            && st'.remote == st.remote && |st'.w.runs| == |st.w.runs|
            && forall q: RunId | q < |st.w.runs| :: st'.w.runs[q] ==
                 if q == r && q !in st.remote && !st.w.runs[q].state.Terminal()
                 then st.w.runs[q].(state := if gatewayFails then Interrupted else Cancelled) else st.w.runs[q]
  {
    var p := Pause([], st.remote);
    LastWriteDecides(st.w, StopWrites(r, gatewayFails, p));
    forall q: RunId | q < |st.w.runs|
      ensures LastWrite(StopWrites(r, gatewayFails, p), q) ==
              if q == r then Some(if gatewayFails then Interrupted else Cancelled) else None
    {
      LastOfStopWrites(r, gatewayFails, p, q);
    }
  }

  /** The question of an agent that is being stopped arrives while its gateway is asked to interrupt: the
      cancelled run waits for approval again. */
  lemma LateQuestionRevives(st: StopState, p: Pause)
    requires st == StopState(Written([Run(0, NoParent, 0, Running)], Desk(map[], map[], map[], map[], map[])), map[], map[])
    requires p == Pause([(0, WaitingApproval)], map[])
    ensures !Stopped(StopAll(st, [0], {}, [p]), 0)
    ensures StopAll(st, [0], {}, [p]).w.runs[0].state == WaitingApproval
  {
    StopStepStopsIff(st, 0, false, p);
    LastWriteDecides(st.w, StopWrites(0, false, p));
    LastOfStopWrites(0, false, p, 0);
    assert [0][..0] == [];
    assert p.writes[..0] == [] && LastWrite(p.writes, 0) == Some(WaitingApproval);
    assert StopAll(st, [0], {}, [p]) == StopStep(st, 0, false, p);
  }

  // ----- interrupting runs -----

  /** The heartbeat route: the runs of lost commands are interrupted, one after the other, unless they have ended. */
  function InterruptAll(w: Tables2, lost: seq<RunId>): (w': Tables2)
    ensures |w'.runs| == |w.runs|
  {
    if lost == [] then w
    else
      var n := |lost| - 1;
      var before := InterruptAll(w, lost[..n]);
      if lost[n] < |before.runs| && !before.runs[lost[n]].state.Terminal() then Write(before, lost[n], Interrupted) else before
  }

  lemma {:induction false} InterruptedRuns(w: Tables2, lost: seq<RunId>)
    ensures forall r: RunId | r < |w.runs| :: InterruptAll(w, lost).runs[r] ==
              if r in lost && !w.runs[r].state.Terminal() then w.runs[r].(state := Interrupted) else w.runs[r]
    decreases |lost|
  {
    if lost != [] {
      var n := |lost| - 1;
      InterruptedRuns(w, lost[..n]);
      assert lost == lost[..n] + [lost[n]];
    }
  }
}
