/** The rows of the coordinator's tables that carry its logic. Generated identifiers are
    numbers, handed out in creation order; text columns are left out. */
module Rows {

  datatype Option<+T> = None | Some(value: T)

  type AgentId = nat
  type RunId = nat
  type MachineId = nat
  type TaskId = nat
  type BoardId = nat
  type StageId = nat
  type TeamId = nat

  datatype RunState =
    | Queued | Running | WaitingApproval | WaitingInput
    | Completed | Failed | Interrupted | Cancelled
  {
    predicate Active() { Running? || WaitingApproval? || WaitingInput? }

    predicate Terminal() { Completed? || Failed? || Interrupted? || Cancelled? }
  }

  /** `parent_run_id`: empty, an identifier no run ever had, or an existing run. */
  datatype ParentRef = NoParent | Unknown | Of(id: RunId)

  datatype Run = Run(agent: AgentId, parent: ParentRef, depth: int, state: RunState)

  datatype Desktop = NoDesktop | Virtual | Existing

  /** The computer settings of an agent profile, with the profile's revision. */
  datatype Profile = Profile(revision: nat, machine: MachineId, concurrency: int, desktop: Desktop, reserve: bool)

  datatype Machine = Machine(online: bool, revoked: bool, reserved: Option<AgentId>)

  datatype TransferState = Waiting | Exporting | Importing | Verifying | Moved | Abandoned {
    predicate InProgress() { Waiting? || Exporting? || Importing? || Verifying? }

    /** Files may be read or written: the states in which the agent must not work. */
    predicate Moving() { Exporting? || Importing? || Verifying? }
  }

  /** A row of `agent_transfers` with what its `performTransfer` call knows: the checksums it has
      received, and whether the call is still running (`live`). */
  datatype Transfer = Transfer(
    agent: AgentId, source: MachineId, destination: MachineId, state: TransferState,
    pending: Profile, exported: Option<nat>, imported: Option<nat>, live: bool)

  /** `MAX_TASK_QUEUE` and `MAX_TASK_RUNS`, both at least 1. */
  datatype Limits = Limits(queue: nat, taskRuns: nat)
}
