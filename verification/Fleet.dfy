/** `Machines` (runtime/machines.ts): command rows, receipts, reservations and transfer rows, updated in
    place. The rows of each machine are the ones of `Commands` and `Protocol`. */
module Fleet {
  import opened Rows
  import opened Scheduler
  import opened Moves
  import opened Commands
  import opened Recovery
  import opened Database

  /** The transfers behind the lost commands, failed one after the other. */
  function LoseAll(s: Sched, lost: seq<Option<nat>>): Sched {
    if lost == [] then s
    else
      var rest := LoseAll(s, lost[..|lost| - 1]);
      var last := lost[|lost| - 1];
      if last.Some? then LoseTransferLease(rest, last.value) else rest
  }

  /** `s'` is `s` after the leases of the listed transfers were lost. */
  ghost predicate LostOnly(s: Sched, s': Sched, lost: seq<Option<nat>>) {
    && s' == s.(machines := s'.machines, transfers := s'.transfers) && |s'.transfers| == |s.transfers|
    && (forall i | 0 <= i < |s.transfers| && s.transfers[i].state.Moving() && Some(i) in lost :: s'.transfers[i].state.Abandoned?)
    && (forall i | 0 <= i < |s.transfers| && Some(i) !in lost :: s'.transfers[i] == s.transfers[i])
    && (forall i | 0 <= i < |s.transfers| && s.transfers[i].state.Abandoned? :: s'.transfers[i].state.Abandoned?)
  }

  lemma LoseOneMore(s: Sched, s': Sched, lost: seq<Option<nat>>, x: Option<nat>)
    requires LostOnly(s, s', lost)
    ensures LostOnly(s, if x.Some? then LoseTransferLease(s', x.value) else s', lost + [x])
  {
    assert forall i: nat :: Some(i) in lost + [x] <==> Some(i) in lost || x == Some(i);
  }

  lemma {:induction false} LosesTransfersOnly(s: Sched, lost: seq<Option<nat>>)
    ensures LostOnly(s, LoseAll(s, lost), lost)
    decreases |lost|
  {
    if lost != [] {
      var n := |lost| - 1;
      LosesTransfersOnly(s, lost[..n]);
      LoseOneMore(s, LoseAll(s, lost[..n]), lost[..n], lost[n]);
      assert lost == lost[..n] + [lost[n]];
    }
  }

  /** The transfer each lost command worked for, if any. */
  function TransfersOf(of: map<(MachineId, CommandId), nat>, machine: MachineId, lost: seq<CommandId>): (r: seq<Option<nat>>)
    ensures |r| == |lost|
  {
    seq(|lost|, i requires 0 <= i < |lost| => if (machine, lost[i]) in of then Some(of[(machine, lost[i])]) else None)
  }

  datatype EventReply = NotFound | WrongRun | Fresh | Duplicate

  datatype FinishReply = NoCommand | Recorded | AlreadyFinished

  class Machines {
    const db: Tables
    var commands: map<MachineId, seq<Command>>
    var runOf: map<(MachineId, CommandId), RunId>
    var transferOf: map<(MachineId, CommandId), nat>
    var receipts: set<(MachineId, CommandId, nat)>

    constructor (db: Tables)
      ensures this.db == db && commands == map[] && receipts == {}
    {
      this.db := db;
      commands, runOf, transferOf, receipts := map[], map[], map[], {};
    }

    function RowsOf(machine: MachineId): seq<Command>
      reads this`commands
    {
      if machine in commands then commands[machine] else []
    }

    method Enqueue(machine: MachineId, run: Option<RunId>, transfer: Option<nat>) returns (c: CommandId)
      modifies this`commands, this`runOf, this`transferOf
      ensures c == |old(RowsOf(machine))|
      ensures commands == old(commands)[machine := old(RowsOf(machine)) + [Pending]]
      ensures runOf == if run.Some? then old(runOf)[(machine, c) := run.value] else old(runOf)
      ensures transferOf == if transfer.Some? then old(transferOf)[(machine, c) := transfer.value] else old(transferOf)
    {
      c := |RowsOf(machine)|;
      commands := commands[machine := RowsOf(machine) + [Pending]];
      if run.Some? { runOf := runOf[(machine, c) := run.value]; }
      if transfer.Some? { transferOf := transferOf[(machine, c) := transfer.value]; }
    }

    /** `SELECT ... WHERE state='queued' ORDER BY created_at LIMIT 10` */
    method SelectPending(machine: MachineId) returns (batch: seq<CommandId>)
      ensures batch == Batch(RowsOf(machine))
    {
      var rows := RowsOf(machine);
      batch := [];
      var i := 0;
      while i < |rows| && |batch| < POLL_LIMIT
        invariant 0 <= i <= |rows| && |batch| <= POLL_LIMIT
        invariant Batch(rows) == batch + FirstPending(rows, i, POLL_LIMIT - |batch|)
      {
        if rows[i].Pending? { batch := batch + [i]; }
        i := i + 1;
      }
      assert FirstPending(rows, i, POLL_LIMIT - |batch|) == [];
    }

    /** Leases the oldest ten waiting commands of this machine; other machines keep their rows. */
    method Poll(machine: MachineId, now: int) returns (batch: seq<CommandId>)
      modifies this`commands
      ensures batch == Batch(old(RowsOf(machine)))
      ensures commands == old(commands)[machine := Lease(old(RowsOf(machine)), batch, now)]
    {
      batch := SelectPending(machine);
      var rows := RowsOf(machine);
      BatchIsOldestTen(rows);
      ghost var before := rows;
      var i := 0;
      while i < |batch|
        invariant 0 <= i <= |batch| && |rows| == |before|
        invariant forall c: CommandId | c < |rows| :: rows[c] == if c in batch[..i] && before[c].Pending? then Leased(now) else before[c]
      {
        assert batch[i] in batch;
        if rows[batch[i]].Pending? { rows := rows[batch[i] := Leased(now)]; }
        i := i + 1;
      }
      assert batch[..i] == batch;
      assert rows == Lease(before, batch, now);
      commands := commands[machine := rows];
    }

    /** The first result stays; a repeated one is answered as a duplicate. */
    method FinishCommand(machine: MachineId, c: CommandId, outcome: Outcome) returns (reply: FinishReply)
      modifies this`commands
      ensures reply.NoCommand? <==> c >= |old(RowsOf(machine))|
      ensures reply.AlreadyFinished? <==> c < |old(RowsOf(machine))| && old(RowsOf(machine))[c].Finished?
      ensures commands == if reply.Recorded? then old(commands)[machine := Finish(old(RowsOf(machine)), c, outcome)] else old(commands)
    {
      var rows := RowsOf(machine);
      if c >= |rows| { return NoCommand; }
      if rows[c].Finished? { return AlreadyFinished; }
      commands := commands[machine := rows[c := Finished(outcome)]];
      reply := Recorded;
    }

    /** An event counts once, and only for the run its command was issued for. */
    method ReceiveEvent(machine: MachineId, c: CommandId, event: nat, run: RunId) returns (reply: EventReply)
      modifies this`receipts
      ensures reply.NotFound? <==> c >= |RowsOf(machine)|
      ensures reply.WrongRun? <==> c < |RowsOf(machine)| && !((machine, c) in runOf && runOf[(machine, c)] == run)
      ensures reply.Duplicate? ==> (machine, c, event) in old(receipts)
      ensures receipts == if reply.Fresh? then old(receipts) + {(machine, c, event)} else old(receipts)
      ensures reply.Fresh? ==> (machine, c, event) !in old(receipts)
    {
      if c >= |RowsOf(machine)| { return NotFound; }
      if !((machine, c) in runOf && runOf[(machine, c)] == run) { return WrongRun; }
      if (machine, c, event) in receipts { return Duplicate; }
      receipts := receipts + {(machine, c, event)};
      reply := Fresh;
    }

    /** The rows to fail, in creation order. */
    method SelectUncertain(machine: MachineId, active: set<CommandId>, now: int) returns (uncertain: seq<CommandId>)
      ensures forall c: CommandId :: c in uncertain <==> c < |RowsOf(machine)| && Expires(RowsOf(machine)[c], c, active, now)
      ensures Ascending(uncertain)
    {
      var rows := RowsOf(machine);
      uncertain := [];
      var c := 0;
      while c < |rows|
        invariant 0 <= c <= |rows| && Ascending(uncertain)
        invariant forall i | 0 <= i < |uncertain| :: uncertain[i] < c
        invariant forall q: CommandId :: q in uncertain <==> q < c && Expires(rows[q], q, active, now)
      {
        if Expires(rows[c], c, active, now) { uncertain := uncertain + [c]; }
        c := c + 1;
      }
    }

    /** The transfers behind the given commands, failed one after the other. */
    method FailTransfers(machine: MachineId, lost: seq<CommandId>)
      modifies db`transfers, db`machines
      ensures db.Rest() == LoseAll(old(db.Rest()), TransfersOf(transferOf, machine, lost))
    {
      ghost var all := TransfersOf(transferOf, machine, lost);
      var i := 0;
      while i < |lost|
        invariant 0 <= i <= |lost| && db.Rest() == LoseAll(old(db.Rest()), all[..i])
      {
        assert all[..i + 1][..i] == all[..i];
        if (machine, lost[i]) in transferOf { FailTransferRow(transferOf[(machine, lost[i])]); }
        i := i + 1;
      }
      assert all[..i] == all;
    }

    /** Fails every old lease the runner does not claim, and the transfers behind them. */
    method ReconcileLeases(machine: MachineId, active: set<CommandId>, now: int) returns (uncertain: seq<CommandId>)
      modifies this`commands, db`transfers, db`machines
      ensures commands == old(commands)[machine := Expire(old(RowsOf(machine)), active, now)]
      ensures forall c: CommandId :: c in uncertain <==> c < |old(RowsOf(machine))| && Expires(old(RowsOf(machine))[c], c, active, now)
      ensures Ascending(uncertain)
      ensures db.Rest() == LoseAll(old(db.Rest()), TransfersOf(transferOf, machine, uncertain))
    {
      uncertain := SelectUncertain(machine, active, now);
      var rows := RowsOf(machine);
      ghost var before := rows;
      var i := 0;
      while i < |uncertain|
        invariant 0 <= i <= |uncertain| && |rows| == |before|
        invariant forall c: CommandId | c < |rows| :: rows[c] == if c in uncertain[..i] then Finished(Uncertain) else before[c]
      {
        assert uncertain[i] in uncertain;
        rows := rows[uncertain[i] := Finished(Uncertain)];
        i := i + 1;
      }
      assert uncertain[..i] == uncertain;
      assert rows == Expire(before, active, now);
      commands := commands[machine := rows];
      FailTransfers(machine, uncertain);
    }

    method FailTransferRow(i: nat)
      modifies db`transfers, db`machines
      ensures db.Rest() == LoseTransferLease(old(db.Rest()), i)
    {
      if i < |db.transfers| && db.transfers[i].state.Moving() {
        var t := db.transfers[i];
        db.transfers := db.transfers[i := t.(state := Abandoned)];
        db.machines := Reserve(db.machines, t.destination, t.agent, false);
      }
    }

    /** Starting up: interrupted transfers are failed and their destinations released. */
    method Recover()
      modifies db`transfers, db`machines
      ensures db.machines == ReleaseAll(old(db.machines), old(db.transfers))
      ensures db.transfers == RecoverTransfers(old(db.transfers))
    {
      var i := 0;
      while i < |db.transfers|
        invariant 0 <= i <= |db.transfers| == |old(db.transfers)|
        invariant forall k | 0 <= k < |db.transfers| ::
                    db.transfers[k] == if k < i then RecoverTransfers(old(db.transfers))[k] else old(db.transfers)[k]
        invariant db.machines == ReleaseAll(old(db.machines), old(db.transfers)[..i])
      {
        var t := db.transfers[i];
        assert old(db.transfers)[..i + 1][..i] == old(db.transfers)[..i];
        if t.state.InProgress() {
          db.machines := Reserve(db.machines, t.destination, t.agent, false);
          t := t.(state := Abandoned);
        }
        db.transfers := db.transfers[i := t.(live := false)];
        i := i + 1;
      }
      assert old(db.transfers)[..i] == old(db.transfers);
    }
  }
}
