/** Moving an agent, on the tables: the transfer request, the profile PUT branch, and `performTransfer`
    between two waits at a time (runtime/service.ts, runtime/machines.ts, runtime/profiles.ts). */
module Relocation {
  import opened Rows
  import opened Scheduler
  import opened Moves
  import opened Database

  class Mover {
    const db: Tables

    constructor (db: Tables)
      ensures this.db == db
    {
      this.db := db;
    }

    method IsTransferring(agent: AgentId) returns (moving: bool)
      ensures moving <==> Transferring(db.Rest(), agent)
    {
      var i := 0;
      while i < |db.transfers|
        invariant 0 <= i <= |db.transfers|
        invariant forall k | 0 <= k < i :: !(db.transfers[k].agent == agent && db.transfers[k].state.InProgress())
      {
        if db.transfers[i].agent == agent && db.transfers[i].state.InProgress() { return true; }
        i := i + 1;
      }
      moving := false;
    }

    /** `reserve`; refused for an unknown machine, and for one that is revoked or reserved by another agent. */
    method ReserveMachine(machine: MachineId, agent: AgentId, reserve: bool) returns (ok: bool)
      modifies db`machines
      ensures ok <==> CanReserve(old(db.machines), machine, agent, reserve)
      ensures db.machines == if ok then Reserve(old(db.machines), machine, agent, reserve) else old(db.machines)
    {
      if machine !in db.machines { return false; }
      var row := db.machines[machine];
      if reserve && (row.revoked || (row.reserved != None && row.reserved != Some(agent))) { return false; }
      var reserved := if reserve then Some(agent) else if row.reserved == Some(agent) then None else row.reserved;
      db.machines := db.machines[machine := row.(reserved := reserved)];
      ok := true;
    }

    method RequestTransfer(agent: AgentId, destination: MachineId)
      modifies db`transfers
      ensures db.Rest() == RequestMove(old(db.Rest()), agent, destination)
    {
      var moving := IsTransferring(agent);
      if agent !in db.profiles || moving || db.profiles[agent].machine == destination
         || !CanAssign(db.machines, destination, agent) { return; }
      var source, pending := db.profiles[agent].machine, db.profiles[agent].(machine := destination);
      db.transfers := db.transfers + [Transfer(agent, source, destination, Waiting, pending, None, None, true)];
    }

    /** A profile that names another machine keeps the old computer settings until the move is verified. */
    method Put(agent: AgentId, desired: Profile)
      modifies db`transfers, db`profiles, db`machines
      ensures db.Rest() == PutProfile(old(db.Rest()), agent, desired)
    {
      var moving := IsTransferring(agent);
      if moving || !CanAssign(db.machines, desired.machine, agent) { return; }
      var known, revision := agent in db.profiles, if agent in db.profiles then db.profiles[agent].revision else 0;
      if desired.revision != revision { return; }
      var moves := known && db.profiles[agent].machine != desired.machine;
      var saved := if moves then db.profiles[agent] else desired;
      var source := saved.machine;
      db.profiles := db.profiles[agent := saved.(revision := revision + 1)];
      var ok := ReserveMachine(desired.machine, agent, desired.reserve);
      if moves {
        var pending := desired.(revision := revision + 1);
        db.transfers := db.transfers + [Transfer(agent, source, desired.machine, Waiting, pending, None, None, true)];
      }
    }

    /** The wait for the agent's last run is over. */
    method BeginExport(i: nat, store: Store)
      requires store.db == db && InStage(db.Rest(), i, Waiting)
      modifies db`transfers
      ensures db.Rest() == StartExport(old(db.Rest()), i)
    {
      var busy := store.AgentIsBusy(db.transfers[i].agent);
      if !busy { db.transfers := db.transfers[i := db.transfers[i].(state := Exporting)]; }
    }

    method Exported(i: nat, checksum: nat)
      requires InStage(db.Rest(), i, Exporting)
      modifies db`transfers
      ensures db.Rest() == FinishExport(old(db.Rest()), i, checksum)
    {
      db.transfers := db.transfers[i := db.transfers[i].(state := Importing, exported := Some(checksum))];
    }

    method Imported(i: nat, checksum: nat)
      requires InStage(db.Rest(), i, Importing)
      modifies db`transfers
      ensures db.Rest() == FinishImport(old(db.Rest()), i, checksum)
    {
      db.transfers := db.transfers[i := db.transfers[i].(state := Verifying, imported := Some(checksum))];
    }

    /** Comparing checksums, applying the profile, and moving the reservations. The files were read from
        the source machine before, and machine rows are never deleted. */
    method Complete(i: nat)
      requires InStage(db.Rest(), i, Verifying) && db.transfers[i].source in db.machines
      modifies db`transfers, db`profiles, db`machines
      ensures db.Rest() == Verify(old(db.Rest()), i)
    {
      var t := db.transfers[i];
      if t.imported != t.exported || t.agent !in db.profiles {
        Fail(i);
        return;
      }
      db.profiles := db.profiles[t.agent := t.pending.(revision := db.profiles[t.agent].revision)];
      var freed := ReserveMachine(t.source, t.agent, false);
      var kept := ReserveMachine(t.destination, t.agent, t.pending.reserve);
      if kept {
        db.transfers := db.transfers[i := t.(state := Moved, live := false)];
      } else {
        Fail(i);
      }
    }

    method Fail(i: nat)
      requires i < |db.transfers| && db.transfers[i].live
      modifies db`transfers, db`machines
      ensures db.Rest() == FailTransfer(old(db.Rest()), i)
    {
      var t := db.transfers[i];
      var released := ReserveMachine(t.destination, t.agent, false);
      db.transfers := db.transfers[i := t.(state := Abandoned, live := false)];
    }
  }
}
