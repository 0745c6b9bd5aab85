/** How the coordinator follows a run on another machine: the polling loop of `executeRemote`
    (runtime/service.ts), and when work that was done is given up nevertheless. */
module RemoteRuns {
  import opened Rows
  import opened Commands

  /** What one round of the loop reads: the time, whether the run was cancelled, whether the machine is
      online, and the command's row. */
  datatype Look = Look(at: int, cancelled: bool, online: bool, row: Command)

  /** How the loop ends: with the command's result, its error, a cancellation, or because the machine did
      not come back in time. */
  datatype End = Done(value: nat) | Broken(outcome: Outcome) | WasCancelled | GivenUp

  /** When the current offline time began, after a look. */
  function OfflineSince(since: Option<int>, l: Look): Option<int> {
    if l.online then None else if since.Some? then since else Some(l.at)
  }

  /** One round. The machine is judged before the row is, whatever the row says. */
  function Judge(grace: int, since: Option<int>, l: Look): Option<End> {
    if l.cancelled then Some(WasCancelled)
    else if !l.online && since.Some? && l.at - since.value > grace then Some(GivenUp)
    else match l.row
         case Finished(Result(value)) => Some(Done(value))
         case Finished(outcome) => Some(Broken(outcome))
         case _ => None
  }

  function Watch(grace: int, since: Option<int>, looks: seq<Look>): Option<End>
    decreases |looks|
  {
    if looks == [] then None
    else
      var end := Judge(grace, since, looks[0]);
      if end.Some? then end else Watch(grace, OfflineSince(since, looks[0]), looks[1..])
  }

  // ----- exactly when the result arrives -----

  /** At look `n` the machine has been offline, at every look since it was last seen online, for longer than
      the grace period; or, all the time, since before the first look. */
  ghost predicate TooLong(grace: int, since: Option<int>, looks: seq<Look>, n: nat)
    requires n < |looks|
  {
    || (exists k :: 0 <= k < n && Begins(since, looks, k) && AllOffline(looks, k, n) && looks[n].at - looks[k].at > grace)
    || (since.Some? && AllOffline(looks, 0, n) && looks[n].at - since.value > grace)
  }

  /** The machine was online before look `k`. */
  ghost predicate Begins(since: Option<int>, looks: seq<Look>, k: nat)
    requires k < |looks|
  {
    if k == 0 then since.None? else looks[k - 1].online
  }

  ghost predicate AllOffline(looks: seq<Look>, k: nat, n: nat)
    requires k <= n < |looks|
  {
    forall i | k <= i <= n :: !looks[i].online
  }

  /** The loop goes on after this look. */
  ghost predicate GoesOn(grace: int, since: Option<int>, looks: seq<Look>, n: nat)
    requires n < |looks|
  {
    !looks[n].cancelled && !TooLong(grace, since, looks, n) && !looks[n].row.Finished?
  }

  /** The loop ends at look `n`, and why: a cancellation counts before the absence of the machine, and that before
      what the row says. */
  ghost predicate EndsAt(grace: int, since: Option<int>, looks: seq<Look>, n: nat, end: End)
    requires n < |looks|
  {
    && (forall i | 0 <= i < n :: GoesOn(grace, since, looks, i))
    && (if looks[n].cancelled then end == WasCancelled
        else if TooLong(grace, since, looks, n) then end == GivenUp
        else match looks[n].row
             case Finished(Result(value)) => end == Done(value)
             case Finished(outcome) => end == Broken(outcome)
             case _ => false)
  }

  lemma TooLongNow(grace: int, since: Option<int>, looks: seq<Look>)
    requires looks != []
    ensures TooLong(grace, since, looks, 0) <==> !looks[0].online && since.Some? && looks[0].at - since.value > grace
  {}

  /** Looking from the second look on, with the offline time carried over, changes no judgement. */
  lemma TooLongLater(grace: int, since: Option<int>, looks: seq<Look>, n: nat)
    requires 0 < n < |looks|
    ensures TooLong(grace, since, looks, n) <==> TooLong(grace, OfflineSince(since, looks[0]), looks[1..], n - 1)
  {
    var rest, since' := looks[1..], OfflineSince(since, looks[0]);
    assert forall k | 1 <= k <= n :: AllOffline(looks, k, n) <==> AllOffline(rest, k - 1, n - 1) by {
      forall k | 1 <= k <= n ensures AllOffline(looks, k, n) <==> AllOffline(rest, k - 1, n - 1) { OfflineLater(looks, k, n); }
    }
    assert AllOffline(looks, 0, n) <==> !looks[0].online && AllOffline(looks, 1, n);
    if TooLong(grace, since, looks, n) {
      if k :| 0 <= k < n && Begins(since, looks, k) && AllOffline(looks, k, n) && looks[n].at - looks[k].at > grace {
        if k > 0 { assert Begins(since', rest, k - 1) && rest[k - 1] == looks[k]; }
      }
    }
    if TooLong(grace, since', rest, n - 1) {
      if k :| 0 <= k < n - 1 && Begins(since', rest, k) && AllOffline(rest, k, n - 1) && rest[n - 1].at - rest[k].at > grace {
        assert Begins(since, looks, k + 1) && AllOffline(looks, k + 1, n) && looks[k + 1] == rest[k];
      }
    }
  }

  lemma OfflineLater(looks: seq<Look>, k: nat, n: nat)
    requires 1 <= k <= n < |looks|
    ensures AllOffline(looks, k, n) <==> AllOffline(looks[1..], k - 1, n - 1)
  {
    if AllOffline(looks[1..], k - 1, n - 1) {
      forall i | k <= i <= n ensures !looks[i].online { assert !looks[1..][i - 1].online; }
    }
  }

  /** How the wait for a run ends, for any looks: with the command's result exactly if that is read at a look before
      which the run was not cancelled, the command had not failed, and the machine was never offline for longer than
      the grace period, this look included; and so for every other end. */
  lemma {:induction false} RunEndsIff(grace: int, since: Option<int>, looks: seq<Look>, end: End)
    ensures Watch(grace, since, looks) == Some(end) <==> exists n :: 0 <= n < |looks| && EndsAt(grace, since, looks, n, end)
    decreases |looks|
  {
    if looks != [] {
      var rest, since' := looks[1..], OfflineSince(since, looks[0]);
      TooLongNow(grace, since, looks);
      if Judge(grace, since, looks[0]).Some? {
        assert !GoesOn(grace, since, looks, 0);
        if Judge(grace, since, looks[0]) == Some(end) { assert EndsAt(grace, since, looks, 0, end); }
      } else {
        RunEndsIff(grace, since', rest, end);
        assert GoesOn(grace, since, looks, 0) && !EndsAt(grace, since, looks, 0, end);
        forall n: nat | n < |rest| ensures EndsAt(grace, since', rest, n, end) <==> EndsAt(grace, since, looks, n + 1, end) {
          EndsLater(grace, since, looks, n + 1, end);
        }
        if n :| 0 <= n < |looks| && EndsAt(grace, since, looks, n, end) { assert EndsAt(grace, since', rest, n - 1, end); }
      }
    }
  }

  lemma EndsLater(grace: int, since: Option<int>, looks: seq<Look>, n: nat, end: End)
    requires 0 < n < |looks| && GoesOn(grace, since, looks, 0)
    ensures EndsAt(grace, since, looks, n, end) <==> EndsAt(grace, OfflineSince(since, looks[0]), looks[1..], n - 1, end)
  {
    var rest, since' := looks[1..], OfflineSince(since, looks[0]);
    forall i | 0 < i <= n ensures TooLong(grace, since, looks, i) <==> TooLong(grace, since', rest, i - 1) { TooLongLater(grace, since, looks, i); }
    forall i | 0 < i < n ensures GoesOn(grace, since, looks, i) <==> GoesOn(grace, since', rest, i - 1) {}
    if EndsAt(grace, since', rest, n - 1, end) {
      forall i | 0 <= i < n ensures GoesOn(grace, since, looks, i) { if i > 0 { assert GoesOn(grace, since', rest, i - 1); } }
    }
    if EndsAt(grace, since, looks, n, end) {
      forall i | 0 <= i < n - 1 ensures GoesOn(grace, since', rest, i) { assert GoesOn(grace, since, looks, i + 1); }
    }
  }

  /** With the default grace period of five minutes, a runner is away for six with its completion in the
      spool. It delivers it before its first heartbeat, and the row has the result, but the run is given
      up. */
  lemma LateReturnLosesTheRun(grace: int, looks: seq<Look>)
    requires grace == 300_000
    requires looks == [Look(0, false, false, Leased(0)), Look(360_000, false, false, Finished(Result(7)))]
    ensures Watch(grace, None, looks) == Some(GivenUp)
  {
    var later := looks[1..];
    assert Watch(grace, Some(0), later) == Some(GivenUp);
  }

  // ----- the loop -----

  /** The loop itself, on the looks it takes. */
  method ExecuteRemote(grace: int, looks: seq<Look>) returns (end: Option<End>)
    ensures end == Watch(grace, None, looks)
  {
    var offlineSince: Option<int> := None;
    var i := 0;
    while i < |looks|
      invariant 0 <= i <= |looks|
      invariant Watch(grace, None, looks) == Watch(grace, offlineSince, looks[i..])
    {
      var l := looks[i];
      if l.cancelled { return Some(WasCancelled); }
      if !l.online {
        if offlineSince.None? {
          offlineSince := Some(l.at);
        } else if l.at - offlineSince.value > grace {
          return Some(GivenUp);
        }
      } else {
        offlineSince := None;
      }
      match l.row {
        case Finished(Result(value)) => return Some(Done(value));
        case Finished(outcome) => return Some(Broken(outcome));
        case _ =>
      }
      i := i + 1;
    }
    end := None;
  }
}
