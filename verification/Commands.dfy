/** The command table of one machine (runtime/machines.ts): what polling, finishing and lease
    reconciliation do to its rows. A command's number is its index, in creation order. */
module Commands {

  const POLL_LIMIT := 10
  const LEASE_AGE := 45_000

  type CommandId = nat

  /** `Uncertain` is the failure the coordinator itself records for a lost lease. */
  datatype Outcome = Result(value: nat) | Error(message: nat) | Uncertain

  datatype Command = Pending | Leased(at: int) | Finished(outcome: Outcome)

  /** The first `limit` waiting rows from row `i` on. */
  function FirstPending(rows: seq<Command>, i: nat, limit: nat): (found: seq<CommandId>)
    requires i <= |rows|
    decreases |rows| - i
  {
    if i == |rows| || limit == 0 then []
    else if rows[i].Pending? then [i] + FirstPending(rows, i + 1, limit - 1)
    else FirstPending(rows, i + 1, limit)
  }

  /** The rows of one poll reply. */
  function Batch(rows: seq<Command>): seq<CommandId> { FirstPending(rows, 0, POLL_LIMIT) }

  function Lease(rows: seq<Command>, batch: seq<CommandId>, now: int): (rows': seq<Command>)
    ensures |rows'| == |rows|
  {
    seq(|rows|, c requires 0 <= c < |rows| => if c in batch && rows[c].Pending? then Leased(now) else rows[c])
  }

  /** `finish`: a terminal row answers `duplicate` and keeps its result. */
  function Finish(rows: seq<Command>, c: CommandId, outcome: Outcome): (rows': seq<Command>)
    ensures |rows'| == |rows|
  {
    if c < |rows| && !rows[c].Finished? then rows[c := Finished(outcome)] else rows
  }

  predicate Expires(row: Command, c: CommandId, active: set<CommandId>, now: int) {
    row.Leased? && row.at < now - LEASE_AGE && c !in active
  }

  /** `reconcileLeases`: leases older than the lease age that the runner does not claim are failed. */
  function Expire(rows: seq<Command>, active: set<CommandId>, now: int): (rows': seq<Command>)
    ensures |rows'| == |rows|
  {
    seq(|rows|, c requires 0 <= c < |rows| => if Expires(rows[c], c, active, now) then Finished(Uncertain) else rows[c])
  }

  // ----- one command, one reply -----

  ghost predicate Ascending(s: seq<CommandId>) {
    forall i, j | 0 <= i < j < |s| :: s[i] < s[j]
  }

  lemma {:induction false} FirstPendingFacts(rows: seq<Command>, i: nat, limit: nat)
    requires i <= |rows|
    ensures var found := FirstPending(rows, i, limit);
            && |found| <= limit && Ascending(found)
            && (forall c | c in found :: i <= c < |rows| && rows[c].Pending?)
            && (forall c: CommandId | i <= c < |rows| && rows[c].Pending? && c !in found ::
                  |found| == limit && forall b | b in found :: b < c)
    decreases |rows| - i
  {
    if i < |rows| && limit > 0 {
      var left := if rows[i].Pending? then limit - 1 else limit;
      FirstPendingFacts(rows, i + 1, left);
      var rest := FirstPending(rows, i + 1, left);
      assert forall j | 0 <= j < |rest| :: rest[j] in rest;
    }
  }

  /** A reply holds at most ten waiting commands, the oldest first; a command is left waiting only
      behind ten older ones. */
  lemma BatchIsOldestTen(rows: seq<Command>)
    ensures var batch := Batch(rows);
            && |batch| <= POLL_LIMIT && Ascending(batch)
            && (forall c | c in batch :: c < |rows| && rows[c].Pending?)
            && (forall c: CommandId | c < |rows| && rows[c].Pending? && c !in batch ::
                  |batch| == POLL_LIMIT && forall b | b in batch :: b < c)
  {
    FirstPendingFacts(rows, 0, POLL_LIMIT);
  }

  /** The first result stays: a command that has not ended, waiting or leased, takes the result; one that has keeps its
      own, and no other command is touched. */
  lemma FirstResultStays(rows: seq<Command>, c: CommandId, outcome: Outcome, other: CommandId)
    requires c < |rows| && other < |rows|
    ensures Finish(rows, c, outcome)[c] == (match rows[c] case Finished(first) => Finished(first) case _ => Finished(outcome))
    ensures other != c ==> Finish(rows, c, outcome)[other] == rows[other]
  {}

  // ----- status only moves forward -----

  predicate Later(a: Command, b: Command) {
    match a
    case Pending => true
    case Leased(at) => b == a || b.Finished?
    case Finished(outcome) => b == a
  }

  /** Waiting, leased, ended: no operation turns a row back, moves a lease, or changes a result. */
  ghost predicate Progress(rows: seq<Command>, rows': seq<Command>) {
    |rows| <= |rows'| && forall c: CommandId | c < |rows| :: Later(rows[c], rows'[c])
  }

  lemma OperationsProgress(rows: seq<Command>, batch: seq<CommandId>, c: CommandId, outcome: Outcome,
                           active: set<CommandId>, now: int)
    ensures Progress(rows, rows + [Pending])
    ensures Progress(rows, Lease(rows, batch, now))
    ensures Progress(rows, Finish(rows, c, outcome))
    ensures Progress(rows, Expire(rows, active, now))
  {}
}
