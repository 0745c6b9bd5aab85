/** What saving a profile and moving an agent come to in the end: which requests are refused, what an accepted
    one stores, and what the agent has when the move is verified (runtime/service.ts). */
module MoveOutcomes {
  import opened Rows
  import opened Scheduler
  import opened Moves
  import opened Recovery
  import opened System
  import opened Guarantees

  /** The agent has a transfer that is neither finished nor failed. */
  ghost predicate OnTheMove(s: Sched, agent: AgentId) {
    exists t :: t in s.transfers && t.agent == agent && t.state != Moved && t.state != Abandoned
  }

  /** The machine exists, is not revoked, and nobody else has reserved it. */
  ghost predicate OpenTo(machines: map<MachineId, Machine>, m: MachineId, agent: AgentId) {
    m in machines && !machines[m].revoked && forall other | machines[m].reserved == Some(other) :: other == agent
  }

  lemma OnTheMoveIff(s: Sched, agent: AgentId)
    ensures Transferring(s, agent) <==> OnTheMove(s, agent)
  {
    if OnTheMove(s, agent) {
      var t :| t in s.transfers && t.agent == agent && t.state != Moved && t.state != Abandoned;
      var i :| 0 <= i < |s.transfers| && s.transfers[i] == t;
      assert s.transfers[i].state.InProgress();
    }
  }

  lemma OpenToIff(machines: map<MachineId, Machine>, m: MachineId, agent: AgentId)
    ensures CanAssign(machines, m, agent) <==> OpenTo(machines, m, agent)
  {
    if m in machines && machines[m].reserved.Some? { assert machines[m].reserved == Some(machines[m].reserved.value); }
  }

  /** The same machines, one of them reserved as wanted. */
  ghost predicate ReservedAsWanted(machines: map<MachineId, Machine>, machines': map<MachineId, Machine>, m: MachineId, agent: AgentId,
                                   wanted: bool)
  {
    && machines'.Keys == machines.Keys && m in machines
    && (forall x | x in machines && x != m :: machines'[x] == machines[x])
    && machines'[m] == machines[m].(reserved := if wanted then Some(agent) else None)
  }

  lemma OpenMachineIsReserved(machines: map<MachineId, Machine>, m: MachineId, agent: AgentId, wanted: bool)
    requires OpenTo(machines, m, agent)
    ensures ReservedAsWanted(machines, Reserve(machines, m, agent, wanted), m, agent, wanted)
  {
    assert machines[m].reserved.Some? ==> machines[m].reserved == Some(machines[m].reserved.value);
  }

  // ----- saving a profile -----

  /** A save is refused, and changes nothing, exactly during a move, for a machine that is not open to the agent,
      and for an outdated revision. */
  lemma PutRefusedIff(s: Sched, agent: AgentId, desired: Profile)
    ensures PutProfile(s, agent, desired) == s <==>
              || OnTheMove(s, agent) || !OpenTo(s.machines, desired.machine, agent)
              || desired.revision != (if agent in s.profiles then s.profiles[agent].revision else 0)
  {
    OnTheMoveIff(s, agent);
    OpenToIff(s.machines, desired.machine, agent);
    var s' := PutProfile(s, agent, desired);
    if s' != s { assert agent in s'.profiles; }
  }

  /** An accepted save reserves the machine as wanted. On the agent's own machine, or for a new agent, the profile
      is stored as desired under the next revision. For another machine the old settings stay, under the next
      revision, and one transfer is appended that holds the desired ones. */
  lemma PutStores(s: Sched, agent: AgentId, desired: Profile)
    requires PutProfile(s, agent, desired) != s
    ensures var s' := PutProfile(s, agent, desired); var stored := desired.(revision := desired.revision + 1);
            && s' == s.(profiles := s'.profiles, machines := s'.machines, transfers := s'.transfers)
            && ReservedAsWanted(s.machines, s'.machines, desired.machine, agent, desired.reserve)
            && if agent in s.profiles && s.profiles[agent].machine != desired.machine then
                 && s'.profiles == s.profiles[agent := s.profiles[agent].(revision := stored.revision)]
                 && s'.transfers == s.transfers +
                      [Transfer(agent, s.profiles[agent].machine, desired.machine, Waiting, stored, None, None, true)]
               else
                 s'.profiles == s.profiles[agent := stored] && s'.transfers == s.transfers
  {
    OpenToIff(s.machines, desired.machine, agent);
    OpenMachineIsReserved(s.machines, desired.machine, agent, desired.reserve);
  }

  /** The transfer request is refused exactly for an unknown agent, during a move, for the machine the agent is on,
      and for one that is not open to it; otherwise it appends one transfer with the current settings. */
  lemma RequestOutcome(s: Sched, agent: AgentId, destination: MachineId)
    ensures var s' := RequestMove(s, agent, destination);
            if agent !in s.profiles || OnTheMove(s, agent) || s.profiles[agent].machine == destination
               || !OpenTo(s.machines, destination, agent) then s' == s
            else
              var p := s.profiles[agent];
              s' == s.(transfers := s.transfers +
                       [Transfer(agent, p.machine, destination, Waiting, p.(machine := destination), None, None, true)])
  {
    OnTheMoveIff(s, agent);
    OpenToIff(s.machines, destination, agent);
  }

  // ----- the whole move -----

  /** The agent has the desired settings, under its current revision. */
  ghost predicate HasSettings(s: Sched, agent: AgentId, p: Profile) {
    agent in s.profiles && s.profiles[agent] == p.(revision := s.profiles[agent].revision)
  }

  /** The destination still exists, and may be reserved if it is to be. */
  ghost predicate DestinationFits(s: Sched, agent: AgentId, p: Profile) {
    p.machine in s.machines && (p.reserve ==> OpenTo(s.machines, p.machine, agent))
  }

  /** Verification has given the agent these settings and nobody else new ones; where the destination fits, the row
      has ended as moved and the destination is reserved as wanted. */
  ghost predicate Delivered(s: Sched, done: Sched, i: nat, agent: AgentId, p: Profile) {
    && HasSettings(done, agent, p)
    && (forall a | a in s.profiles && a != agent :: a in done.profiles && done.profiles[a] == s.profiles[a])
    && (DestinationFits(s, agent, p) ==>
          && i < |done.transfers| && done.transfers[i].state == Moved && p.machine in done.machines
          && (done.machines[p.machine].reserved == Some(agent) <==> p.reserve))
  }

  /** Both checksums have arrived and are equal. */
  ghost predicate Agreed(s: Sched, i: nat, agent: AgentId) {
    InStage(s, i, Verifying) && s.transfers[i].imported == s.transfers[i].exported && agent in s.profiles
  }

  lemma VerificationDelivers(s: Sched, i: nat, agent: AgentId, p: Profile)
    requires Agreed(s, i, agent)
    requires var t := s.transfers[i]; t.agent == agent && t.pending == p && t.destination == p.machine && t.source != t.destination
    ensures Delivered(s, Verify(s, i), i, agent, p)
  {
    VerifiedMoveOutcome(s, i);
    if DestinationFits(s, agent, p) { VerifiedReservation(s, i); }
  }

  lemma PutOpensErrand(sys: Sys, limits: Limits, agent: AgentId, desired: Profile)
    requires agent in sys.s.profiles && sys.s.profiles[agent].machine != desired.machine && PutProfile(sys.s, agent, desired) != sys.s
    ensures var sys' := Next(sys, limits, OfMoves(ProfilePut(agent, desired))); var i := |sys.s.transfers|;
            i < |sys'.s.transfers| && var t := sys'.s.transfers[i];
            && t.agent == agent && t.pending == desired.(revision := desired.revision + 1)
            && t.destination == desired.machine && t.source != t.destination
  {
    PutStores(sys.s, agent, desired);
  }

  /** Whatever happens between the save and the comparison of the checksums, when they are equal the agent gets
      exactly the settings that were asked for. */
  lemma MoveDeliversWhatWasAsked(sys: Sys, limits: Limits, agent: AgentId, desired: Profile, steps: seq<Step>)
    requires agent in sys.s.profiles && sys.s.profiles[agent].machine != desired.machine
    requires PutProfile(sys.s, agent, desired) != sys.s
    ensures var later := RunAll(Next(sys, limits, OfMoves(ProfilePut(agent, desired))), limits, steps).s;
            var i := |sys.s.transfers|;
            i < |later.transfers| && (Agreed(later, i, agent) ==> Delivered(later, Verify(later, i), i, agent, desired))
  {
    var sys1, i := Next(sys, limits, OfMoves(ProfilePut(agent, desired))), |sys.s.transfers|;
    PutOpensErrand(sys, limits, agent, desired);
    ErrandsNeverChange(sys1, limits, steps, i);
    var later := RunAll(sys1, limits, steps).s;
    if Agreed(later, i, agent) {
      VerificationDelivers(later, i, agent, later.transfers[i].pending);
    }
  }

  lemma VerifiedReservation(s: Sched, i: nat)
    requires InStage(s, i, Verifying) && s.transfers[i].agent in s.profiles && s.transfers[i].imported == s.transfers[i].exported
    requires var t := s.transfers[i];
             t.source != t.destination && t.destination in s.machines && (t.pending.reserve ==> OpenTo(s.machines, t.destination, t.agent))
    ensures var t, s' := s.transfers[i], Verify(s, i);
            && s'.transfers[i].state == Moved && t.destination in s'.machines
            && (s'.machines[t.destination].reserved == Some(t.agent) <==> t.pending.reserve)
  {
    var t := s.transfers[i];
    OpenToIff(s.machines, t.destination, t.agent);
    ReservedMachines(s.machines, t.source, t.agent, false, t.destination);
    ReservedMachines(Reserve(s.machines, t.source, t.agent, false), t.destination, t.agent, t.pending.reserve, t.destination);
  }

  // ----- a move that fails -----

  /** Only a reservation the agent has on its destination is released. */
  ghost predicate DestinationReleased(machines: map<MachineId, Machine>, machines': map<MachineId, Machine>, t: Transfer) {
    && machines'.Keys == machines.Keys
    && (forall m | m in machines && (m != t.destination || machines[m].reserved != Some(t.agent)) :: machines'[m] == machines[m])
    && (t.destination in machines && machines[t.destination].reserved == Some(t.agent) ==>
          machines'[t.destination] == machines[t.destination].(reserved := None))
  }

  lemma ReleasingIsRelease(machines: map<MachineId, Machine>, t: Transfer)
    ensures DestinationReleased(machines, Reserve(machines, t.destination, t.agent, false), t)
  {}

  /** A move that fails while its call is running, or whose lease is lost while files are moved, is marked failed and
      releases its destination; profiles and every other row stay. Otherwise both do nothing. */
  lemma FailureOutcome(s: Sched, i: nat)
    ensures var s' := FailTransfer(s, i);
            if i < |s.transfers| && s.transfers[i].live then
              && s' == s.(machines := s'.machines, transfers := s.transfers[i := s.transfers[i].(state := Abandoned, live := false)])
              && DestinationReleased(s.machines, s'.machines, s.transfers[i])
            else s' == s
    ensures var s' := LoseTransferLease(s, i);
            if i < |s.transfers| && s.transfers[i].state in {Exporting, Importing, Verifying} then
              && s' == s.(machines := s'.machines, transfers := s.transfers[i := s.transfers[i].(state := Abandoned)])
              && DestinationReleased(s.machines, s'.machines, s.transfers[i])
            else s' == s
  {
    if i < |s.transfers| { ReleasingIsRelease(s.machines, s.transfers[i]); }
  }

  /** Files that do not arrive as they were sent: the agent stays what and where it is. */
  lemma MismatchLeavesTheAgent(s: Sched, i: nat)
    requires InStage(s, i, Verifying) && s.transfers[i].imported != s.transfers[i].exported
    ensures var s' := Verify(s, i);
            && s'.profiles == s.profiles && s'.transfers[i].state == Abandoned && DestinationReleased(s.machines, s'.machines, s.transfers[i])
  {
    FailureOutcome(s, i);
  }

  // ----- a profile that was read before -----

  /** A saved draft is what was read, under the next revision, exactly if the revision is still the same; it opens no
      transfer and reserves nothing. */
  lemma DraftOutcome(s: Sched, request: nat, agent: AgentId, draft: Profile)
    requires request in s.drafts && s.drafts[request] == (agent, draft)
    ensures var s' := SaveDraft(s, request);
            && s' == s.(profiles := s'.profiles, drafts := s'.drafts) && s'.drafts.Keys == s.drafts.Keys - {request}
            && s'.profiles == if agent in s.profiles && s.profiles[agent].revision == draft.revision
                              then s.profiles[agent := draft.(revision := draft.revision + 1)] else s.profiles
  {}

  // ----- an undisturbed move -----

  /** The stages of `performTransfer` for one row, with the checksum both computers report. */
  function Perform(s: Sched, i: nat, checksum: nat): Sched {
    Verify(FinishImport(FinishExport(StartExport(s, i), i, checksum), i, checksum), i)
  }

  ghost predicate Idle(s: Sched, agent: AgentId) {
    forall q: RunId | q < |s.runs| && s.runs[q].agent == agent :: !s.runs[q].state.Active()
  }

  lemma WithRow(s: Sched, i: nat, t: Transfer, t': Transfer)
    requires i < |s.transfers|
    ensures SetTransfer(SetTransfer(s, i, t), i, t') == SetTransfer(s, i, t')
  {
    assert s.transfers[i := t][i := t'] == s.transfers[i := t'];
  }

  lemma StagesReachVerification(s: Sched, i: nat, checksum: nat)
    requires InStage(s, i, Waiting) && Idle(s, s.transfers[i].agent)
    ensures FinishImport(FinishExport(StartExport(s, i), i, checksum), i, checksum) ==
            SetTransfer(s, i, s.transfers[i].(state := Verifying, exported := Some(checksum), imported := Some(checksum)))
  {
    var t := s.transfers[i];
    var t1 := t.(state := Exporting);
    var t2 := t1.(state := Importing, exported := Some(checksum));
    var s1 := SetTransfer(s, i, t1);
    assert StartExport(s, i) == s1;
    assert FinishExport(s1, i, checksum) == SetTransfer(s1, i, t2);
    WithRow(s, i, t1, t2);
    var s2 := SetTransfer(s, i, t2);
    assert FinishImport(s2, i, checksum) == SetTransfer(s2, i, t2.(state := Verifying, imported := Some(checksum)));
    WithRow(s, i, t2, t2.(state := Verifying, imported := Some(checksum)));
  }

  /** Nothing in the way, the move of an idle agent always arrives. */
  lemma UndisturbedMoveArrives(s: Sched, agent: AgentId, desired: Profile, checksum: nat)
    requires agent in s.profiles && s.profiles[agent].machine != desired.machine && PutProfile(s, agent, desired) != s
    requires Idle(s, agent)
    ensures var before, done, i := PutProfile(s, agent, desired), Perform(PutProfile(s, agent, desired), |s.transfers|, checksum), |s.transfers|;
            DestinationFits(before, agent, desired) && Delivered(before, done, i, agent, desired)
  {
    var before, i := PutProfile(s, agent, desired), |s.transfers|;
    PutStores(s, agent, desired);
    assert Idle(before, agent);
    StagesReachVerification(before, i, checksum);
    var s' := FinishImport(FinishExport(StartExport(before, i), i, checksum), i, checksum);
    VerificationDelivers(s', i, agent, s'.transfers[i].pending);
  }
}
