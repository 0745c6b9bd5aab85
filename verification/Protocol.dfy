/** One runner and the coordinator: polling, heartbeats, the durable spool, receipts, and a network
    that may lose, delay and repeat requests (runtime/runner.ts, runtime/machines.ts). */
module Protocol {
  import opened Rows
  import opened Commands

  datatype Event = Event(command: CommandId, id: nat)

  datatype Heartbeat = Heartbeat(active: set<CommandId>, sentAt: int)

  /** A poll request and, once the coordinator has handled it, its reply. */
  datatype Poll = Asked | Answered(batch: seq<CommandId>)

  /** After a start the runner first flushes its spool; then it serves. */
  datatype Phase = Flushing | Serving

  /** `awaiting` is the poll the runner waits for. `deliveries` holds the completion requests in the
      network, `answered` those the coordinator has handled, `emitting` the event requests.
      `applied` lists the events handed to `mapHermesEvent`, in order. `spooled` and `emitted` record
      every completion and event ever written to the spool, `lost` the events whose receipt was recorded
      by a coordinator that crashed before it applied them. */
  datatype Proto = Proto(
    clock: int, rows: seq<Command>, receipts: set<Event>, applied: seq<Event>,
    phase: Phase, awaiting: Option<nat>, admitted: set<CommandId>,
    spool: map<CommandId, Outcome>, eventSpool: set<Event>,
    heartbeats: set<Heartbeat>, polls: seq<Poll>, deliveries: map<CommandId, Outcome>, answered: set<CommandId>,
    emitting: set<Event>, spooled: map<CommandId, Outcome>, emitted: set<Event>, lost: set<Event>)

  datatype Step =
    | Enqueue
    | Tick(delay: nat)
    | SendPoll
    | HandlePoll(poll: nat)
    | ReceiveBatch
    | GiveUpPoll
    | SendHeartbeat
    | HandleHeartbeat(heartbeat: Heartbeat)
    | SpoolCompletion(command: CommandId, outcome: Outcome)
    | SendCompletion(command: CommandId)
    | HandleCompletion(command: CommandId)
    | CompletionDelivered(command: CommandId)
    | SpoolEvent(event: Event)
    | SendEvent(event: Event)
    | HandleEvent(event: Event)
    | EventDelivered(event: Event)
    | Crash
    | CoordinatorCrashInPoll(cutPoll: nat, leases: nat)
    | CoordinatorCrashInHeartbeat(cutHeartbeat: Heartbeat, rows: nat)
    | CoordinatorCrashInEvent(cutEvent: Event)
    | StartServing

  function Next(s: Proto, step: Step): Proto {
    match step
    case Enqueue => s.(rows := s.rows + [Pending])
    case Tick(delay) => s.(clock := s.clock + delay)
    case SendPoll =>
      if s.phase.Serving? && s.awaiting.None? then s.(polls := s.polls + [Asked], awaiting := Some(|s.polls|)) else s
    case HandlePoll(i) =>
      if i < |s.polls| && s.polls[i].Asked? then
        var batch := Batch(s.rows);
        s.(polls := s.polls[i := Answered(batch)], rows := Lease(s.rows, batch, s.clock))
      else s
    case ReceiveBatch =>
      if s.awaiting.Some? && s.awaiting.value < |s.polls| && s.polls[s.awaiting.value].Answered? then
        s.(admitted := s.admitted + (set c | c in s.polls[s.awaiting.value].batch), awaiting := None)
      else s
    case GiveUpPoll => s.(awaiting := None)
    case SendHeartbeat =>
      if s.phase.Serving? && s.awaiting.None? then s.(heartbeats := s.heartbeats + {Heartbeat(s.admitted, s.clock)}) else s
    case HandleHeartbeat(h) =>
      if h in s.heartbeats then s.(rows := Expire(s.rows, h.active, s.clock)) else s
    case SpoolCompletion(c, outcome) =>
      if c in s.admitted && c !in s.spooled && !outcome.Uncertain? then
        s.(spool := s.spool[c := outcome], spooled := s.spooled[c := outcome])
      else s
    case SendCompletion(c) => if c in s.spool then s.(deliveries := s.deliveries[c := s.spool[c]]) else s
    case HandleCompletion(c) =>
      if c in s.deliveries then s.(rows := Finish(s.rows, c, s.deliveries[c]), answered := s.answered + {c}) else s
    case CompletionDelivered(c) =>
      if c in s.spool && c in s.answered then s.(spool := s.spool - {c}, admitted := s.admitted - {c}) else s
    case SpoolEvent(e) =>
      if e.command in s.admitted && e !in s.emitted then
        s.(eventSpool := s.eventSpool + {e}, emitted := s.emitted + {e})
      else s
    case SendEvent(e) => if e in s.eventSpool then s.(emitting := s.emitting + {e}) else s
    case HandleEvent(e) =>
      if e in s.emitting && e !in s.receipts then s.(receipts := s.receipts + {e}, applied := s.applied + [e]) else s
    case EventDelivered(e) => if e in s.receipts then s.(eventSpool := s.eventSpool - {e}) else s
    case Crash => s.(phase := Flushing, awaiting := None, admitted := {})
    case CoordinatorCrashInPoll(i, n) =>
      if i < |s.polls| && s.polls[i].Asked? && n <= |Batch(s.rows)| then s.(rows := Lease(s.rows, Batch(s.rows)[..n], s.clock)) else s
    case CoordinatorCrashInHeartbeat(h, n) =>
      if h in s.heartbeats && n <= |s.rows| then s.(rows := Expire(s.rows[..n], h.active, s.clock) + s.rows[n..]) else s
    case CoordinatorCrashInEvent(e) =>
      if e in s.emitting && e !in s.receipts then s.(receipts := s.receipts + {e}, lost := s.lost + {e}) else s
    case StartServing =>
      if s.phase.Flushing? && s.spool == map[] && s.eventSpool == {} then s.(phase := Serving) else s
  }

  // ----- invariants -----

  /** The commands the runner answers for: admitted, spooled, or in the reply it waits for. */
  ghost predicate Claims(s: Proto, c: CommandId) {
    || c in s.admitted || c in s.spool
    || (s.awaiting.Some? && s.awaiting.value < |s.polls|
        && s.polls[s.awaiting.value].Answered? && c in s.polls[s.awaiting.value].batch)
  }

  /** A command the runner answers for is leased until its own completion ends it. */
  ghost predicate ClaimsHold(s: Proto) {
    forall c: CommandId | Claims(s, c) :: c < |s.rows| &&
      (s.rows[c].Leased? || (c in s.spooled && s.rows[c] == Finished(s.spooled[c])))
  }

  /** A heartbeat on its way lists every such command, or is older than the lease. */
  ghost predicate HeartbeatsCover(s: Proto) {
    forall h, c: CommandId | h in s.heartbeats && Claims(s, c) && c < |s.rows| && s.rows[c].Leased? ::
      c in h.active || h.sentAt <= s.rows[c].at
  }

  ghost predicate TimesPast(s: Proto) { forall h | h in s.heartbeats :: h.sentAt <= s.clock }

  /** What has ever been spooled is what is in the spool, in the network, or in the table. */
  ghost predicate SpoolAgrees(s: Proto) {
    && (forall c | c in s.spool :: c in s.spooled && s.spool[c] == s.spooled[c])
    && (forall c | c in s.deliveries :: c in s.spooled && s.deliveries[c] == s.spooled[c])
    && (forall c | c in s.answered :: c in s.spooled && c < |s.rows| && s.rows[c] == Finished(s.spooled[c]))
    && (forall c | c in s.spooled :: !s.spooled[c].Uncertain? && (c in s.spool || c in s.answered))
    && (s.phase.Serving? ==> s.spool.Keys <= s.admitted)
  }

  ghost predicate CommandsInv(s: Proto) { ClaimsHold(s) && HeartbeatsCover(s) && TimesPast(s) && SpoolAgrees(s) }

  /** Replies are disjoint and hold no command twice; what they hold is no longer waiting. */
  ghost predicate RepliesDisjoint(s: Proto) { DisjointReplies(s.polls, s.rows) }

  ghost predicate DisjointReplies(polls: seq<Poll>, rows: seq<Command>) {
    && (forall i | 0 <= i < |polls| && polls[i].Answered? ::
          Ascending(polls[i].batch) && forall c | c in polls[i].batch :: c < |rows| && !rows[c].Pending?)
    && (forall i, j, c | 0 <= i < j < |polls| && polls[i].Answered? && polls[j].Answered? ::
          !(c in polls[i].batch && c in polls[j].batch))
  }

  ghost predicate EventsInv(s: Proto) {
    && s.emitting <= s.emitted && s.eventSpool <= s.emitted && s.lost <= s.receipts
    && (forall e | e in s.emitted :: e in s.eventSpool || e in s.receipts)
    && (forall e :: multiset(s.applied)[e] == if e in s.receipts && e !in s.lost then 1 else 0)
  }

  // ----- each step keeps them -----

  /** The hypothesis on the network: a heartbeat arrives before the lease age has passed. */
  predicate Timely(s: Proto, step: Step) {
    && (step.HandleHeartbeat? && step.heartbeat in s.heartbeats ==> s.clock - step.heartbeat.sentAt <= LEASE_AGE)
    && (step.CoordinatorCrashInHeartbeat? && step.cutHeartbeat in s.heartbeats ==> s.clock - step.cutHeartbeat.sentAt <= LEASE_AGE)
  }

  /** No command the runner answers for would be failed by this heartbeat. */
  ghost predicate SparesClaims(s: Proto, h: Heartbeat) {
    forall c: CommandId | Claims(s, c) && c < |s.rows| :: !Expires(s.rows[c], c, h.active, s.clock)
  }

  /** Handling a heartbeat keeps the promise to the runner exactly when it spares all its commands. */
  lemma HeartbeatKeepsClaimsIff(s: Proto, h: Heartbeat)
    requires CommandsInv(s) && h in s.heartbeats
    ensures CommandsInv(Next(s, HandleHeartbeat(h))) <==> SparesClaims(s, h)
  {
    var s' := Next(s, HandleHeartbeat(h));
    assert forall c: CommandId :: Claims(s', c) <==> Claims(s, c);
    if SparesClaims(s, h) {
      assert forall c: CommandId | Claims(s, c) :: s'.rows[c] == s.rows[c];
    } else {
      var c: CommandId :| Claims(s, c) && c < |s.rows| && Expires(s.rows[c], c, h.active, s.clock);
      assert s'.rows[c] == Finished(Uncertain);
    }
  }

  lemma TimelyHeartbeatSpares(s: Proto, h: Heartbeat)
    requires CommandsInv(s) && h in s.heartbeats && s.clock - h.sentAt <= LEASE_AGE
    ensures SparesClaims(s, h)
  {}

  /** A heartbeat cut off half-way fails no more than a whole one. */
  lemma CutHeartbeatKeepsClaims(s: Proto, h: Heartbeat, n: nat)
    requires CommandsInv(s) && h in s.heartbeats && SparesClaims(s, h)
    ensures CommandsInv(Next(s, CoordinatorCrashInHeartbeat(h, n)))
  {
    var s' := Next(s, CoordinatorCrashInHeartbeat(h, n));
    assert forall c: CommandId :: Claims(s', c) <==> Claims(s, c);
    forall c: CommandId | c < |s.rows| && !Expires(s.rows[c], c, h.active, s.clock) ensures s'.rows[c] == s.rows[c] {}
  }

  /** A poll cut off half-way leases some commands that nobody will run, and none that somebody does. */
  lemma CutPollKeepsClaims(s: Proto, i: nat, n: nat)
    requires CommandsInv(s)
    ensures CommandsInv(Next(s, CoordinatorCrashInPoll(i, n)))
  {
    var s' := Next(s, CoordinatorCrashInPoll(i, n));
    assert forall c: CommandId :: Claims(s', c) <==> Claims(s, c);
    forall c: CommandId | c < |s.rows| && !s.rows[c].Pending? ensures s'.rows[c] == s.rows[c] {}
  }

  lemma LeasedRow(rows: seq<Command>, c: CommandId, now: int)
    requires c < |rows|
    ensures var row' := Lease(rows, Batch(rows), now)[c];
            && (!rows[c].Pending? ==> row' == rows[c])
            && (c in Batch(rows) ==> row' == Leased(now))
  {
    BatchIsOldestTen(rows);
  }

  lemma PollingKeepsClaims(s: Proto, i: nat)
    requires CommandsInv(s)
    ensures CommandsInv(Next(s, HandlePoll(i)))
  {
    var s' := Next(s, HandlePoll(i));
    if i < |s.polls| && s.polls[i].Asked? {
      BatchIsOldestTen(s.rows);
      forall c: CommandId | c in s.answered ensures s'.rows[c] == s.rows[c] { LeasedRow(s.rows, c, s.clock); }
      forall c: CommandId | Claims(s', c)
        ensures c < |s.rows| && ((Claims(s, c) && s'.rows[c] == s.rows[c]) || s'.rows[c] == Leased(s.clock))
      {
        assert Claims(s, c) || c in Batch(s.rows);
        LeasedRow(s.rows, c, s.clock);
      }
    }
  }

  lemma SpoolingKeepsClaims(s: Proto, c: CommandId, outcome: Outcome)
    requires CommandsInv(s)
    ensures CommandsInv(Next(s, SpoolCompletion(c, outcome)))
  {
    var s' := Next(s, SpoolCompletion(c, outcome));
    if c in s.admitted && c !in s.spooled && !outcome.Uncertain? {
      assert Claims(s, c);
      assert forall q: CommandId :: Claims(s', q) <==> Claims(s, q);
    }
  }

  lemma SendingKeepsClaims(s: Proto, c: CommandId)
    requires CommandsInv(s)
    ensures CommandsInv(Next(s, SendCompletion(c)))
  {}

  /** Handling a completion ends one row, with what was spooled for it. */
  lemma CompletedRow(s: Proto, c: CommandId)
    requires ClaimsHold(s) && SpoolAgrees(s) && c in s.deliveries
    ensures c in s.spooled && c < |s.rows| && (s.rows[c].Leased? || s.rows[c] == Finished(s.spooled[c]))
    ensures Finish(s.rows, c, s.deliveries[c]) == s.rows[c := Finished(s.spooled[c])]
  {
    assert c in s.spool ==> Claims(s, c);
  }

  lemma CompletionKeepsClaims(s: Proto, c: CommandId)
    requires CommandsInv(s)
    ensures CommandsInv(Next(s, HandleCompletion(c)))
  {
    var s' := Next(s, HandleCompletion(c));
    if c in s.deliveries {
      CompletedRow(s, c);
      assert forall q: CommandId :: Claims(s', q) <==> Claims(s, q);
    }
  }

  lemma DeliveryKeepsClaims(s: Proto, c: CommandId)
    requires CommandsInv(s)
    ensures CommandsInv(Next(s, CompletionDelivered(c)))
  {
    assert forall q: CommandId :: Claims(Next(s, CompletionDelivered(c)), q) ==> Claims(s, q);
  }

  /** Steps after which the runner answers for no more commands than before. */
  lemma FewerClaimsKeepInv(s: Proto, s': Proto)
    requires CommandsInv(s) && s.rows <= s'.rows && s'.heartbeats == s.heartbeats && s.clock <= s'.clock
    requires s'.spool == s.spool && s'.deliveries == s.deliveries && s'.answered == s.answered && s'.spooled == s.spooled
    requires s'.phase.Serving? ==> s'.spool.Keys <= s'.admitted
    requires forall c: CommandId | Claims(s', c) :: Claims(s, c)
    ensures CommandsInv(s')
  {}

  lemma PollSteps(s: Proto, c: CommandId)
    ensures Claims(Next(s, SendPoll), c) ==> Claims(s, c)
    ensures Claims(Next(s, ReceiveBatch), c) ==> Claims(s, c)
    ensures Claims(Next(s, GiveUpPoll), c) ==> Claims(s, c)
  {}

  lemma ProcessSteps(s: Proto, c: CommandId)
    ensures Claims(Next(s, Crash), c) ==> Claims(s, c)
    ensures Claims(Next(s, StartServing), c) ==> Claims(s, c)
  {}

  /** Steps of the runner's loop leave rows, spool and network alone. */
  ghost predicate LoopOnly(s: Proto, s': Proto) {
    && s'.rows == s.rows && s'.clock == s.clock && s'.heartbeats == s.heartbeats
    && s'.spool == s.spool && s'.deliveries == s.deliveries && s'.answered == s.answered && s'.spooled == s.spooled
  }

  lemma RunnerSteps(s: Proto, step: Step)
    requires step.SendPoll? || step.ReceiveBatch? || step.GiveUpPoll? || step.Crash? || step.StartServing?
    requires s.phase.Serving? ==> s.spool.Keys <= s.admitted
    ensures LoopOnly(s, Next(s, step))
    ensures Next(s, step).phase.Serving? ==> s.spool.Keys <= Next(s, step).admitted
  {}

  lemma RunnerKeepsClaims(s: Proto, step: Step)
    requires CommandsInv(s)
    requires step.SendPoll? || step.ReceiveBatch? || step.GiveUpPoll? || step.Crash? || step.StartServing?
    ensures CommandsInv(Next(s, step))
  {
    RunnerSteps(s, step);
    forall c: CommandId | Claims(Next(s, step), c) ensures Claims(s, c) {
      PollSteps(s, c);
      ProcessSteps(s, c);
    }
    FewerClaimsKeepInv(s, Next(s, step));
  }

  lemma SendHeartbeatKeepsClaims(s: Proto)
    requires CommandsInv(s)
    ensures CommandsInv(Next(s, SendHeartbeat))
  {
    var s' := Next(s, SendHeartbeat);
    assert forall q: CommandId :: Claims(s', q) <==> Claims(s, q);
  }

  /** Steps that leave everything a claim or a completion depends on alone. */
  ghost predicate Untouched(s: Proto, s': Proto) {
    && s'.admitted == s.admitted && s'.awaiting == s.awaiting && s'.polls == s.polls && s'.phase == s.phase
    && s'.heartbeats == s.heartbeats && s'.spool == s.spool && s'.deliveries == s.deliveries
    && s'.answered == s.answered && s'.spooled == s.spooled
  }

  ghost predicate Quiet(s: Proto, s': Proto) {
    Untouched(s, s') && s.rows <= s'.rows && s.clock <= s'.clock
  }

  lemma QuietCoordinator(s: Proto, step: Step)
    requires step.Enqueue? || step.Tick? || step.HandleEvent? || step.CoordinatorCrashInEvent?
    ensures Quiet(s, Next(s, step))
  {}

  lemma QuietRunner(s: Proto, step: Step)
    requires step.SpoolEvent? || step.SendEvent? || step.EventDelivered?
    ensures Quiet(s, Next(s, step))
  {}

  lemma QuietKeepsClaims(s: Proto, s': Proto)
    requires CommandsInv(s) && Quiet(s, s')
    ensures CommandsInv(s')
  {
    FewerClaimsKeepInv(s, s');
  }

  lemma QuietStepKeepsClaims(s: Proto, step: Step)
    requires CommandsInv(s)
    requires step.Enqueue? || step.Tick? || step.SpoolEvent? || step.SendEvent? || step.HandleEvent? || step.EventDelivered?
             || step.CoordinatorCrashInEvent?
    ensures CommandsInv(Next(s, step))
  {
    if step.SpoolEvent? || step.SendEvent? || step.EventDelivered? { QuietRunner(s, step); } else { QuietCoordinator(s, step); }
    QuietKeepsClaims(s, Next(s, step));
  }

  lemma StepKeepsClaims(s: Proto, step: Step)
    requires CommandsInv(s) && Timely(s, step)
    ensures CommandsInv(Next(s, step))
  {
    match step
    case HandlePoll(i) => PollingKeepsClaims(s, i);
    case HandleHeartbeat(h) =>
      if h in s.heartbeats {
        TimelyHeartbeatSpares(s, h);
        HeartbeatKeepsClaimsIff(s, h);
      }
    case CoordinatorCrashInHeartbeat(h, n) =>
      if h in s.heartbeats {
        TimelyHeartbeatSpares(s, h);
        CutHeartbeatKeepsClaims(s, h, n);
      }
    case CoordinatorCrashInPoll(i, n) => CutPollKeepsClaims(s, i, n);
    case SendHeartbeat => SendHeartbeatKeepsClaims(s);
    case SpoolCompletion(c, outcome) => SpoolingKeepsClaims(s, c, outcome);
    case SendCompletion(c) => SendingKeepsClaims(s, c);
    case HandleCompletion(c) => CompletionKeepsClaims(s, c);
    case CompletionDelivered(c) => DeliveryKeepsClaims(s, c);
    case SendPoll => RunnerKeepsClaims(s, step);
    case ReceiveBatch => RunnerKeepsClaims(s, step);
    case GiveUpPoll => RunnerKeepsClaims(s, step);
    case Crash => RunnerKeepsClaims(s, step);
    case StartServing => RunnerKeepsClaims(s, step);
    case _ => QuietStepKeepsClaims(s, step);
  }

  lemma ReplyKeepsRepliesDisjoint(s: Proto, i: nat)
    requires RepliesDisjoint(s)
    ensures RepliesDisjoint(Next(s, HandlePoll(i)))
  {
    StepProgress(s, HandlePoll(i));
    BatchIsOldestTen(s.rows);
  }

  lemma LaterRowsKeepReplies(polls: seq<Poll>, rows: seq<Command>, rows': seq<Command>)
    requires DisjointReplies(polls, rows) && Progress(rows, rows')
    ensures DisjointReplies(polls, rows') && DisjointReplies(polls + [Asked], rows')
  {}

  lemma OtherStepsKeepPolls(s: Proto, step: Step)
    requires !step.HandlePoll?
    ensures Next(s, step).polls == s.polls || Next(s, step).polls == s.polls + [Asked]
  {}

  lemma StepKeepsReplies(s: Proto, step: Step)
    requires RepliesDisjoint(s)
    ensures RepliesDisjoint(Next(s, step))
  {
    if step.HandlePoll? {
      ReplyKeepsRepliesDisjoint(s, step.poll);
    } else {
      StepProgress(s, step);
      OtherStepsKeepPolls(s, step);
      LaterRowsKeepReplies(s.polls, s.rows, Next(s, step).rows);
    }
  }

  lemma StepProgress(s: Proto, step: Step)
    ensures Progress(s.rows, Next(s, step).rows)
  {
    OperationsProgress(s.rows, Batch(s.rows), 0, Uncertain, {}, s.clock);
  }

  lemma StepKeepsEvents(s: Proto, step: Step)
    requires EventsInv(s)
    ensures EventsInv(Next(s, step))
  {}

  // ----- whole runs -----

  function Start(): Proto {
    Proto(0, [], {}, [], Serving, None, {}, map[], {}, {}, [], map[], {}, {}, map[], {}, {})
  }

  function RunAll(s: Proto, steps: seq<Step>): Proto
    decreases |steps|
  {
    if steps == [] then s else RunAll(Next(s, steps[0]), steps[1..])
  }

  ghost predicate AllTimely(s: Proto, steps: seq<Step>)
    decreases |steps|
  {
    steps == [] || (Timely(s, steps[0]) && AllTimely(Next(s, steps[0]), steps[1..]))
  }

  /** Whatever is lost, repeated or delayed, and wherever runner or coordinator crash, rows only move
      forward, no command is handed out in two replies, and every event is applied at most once. Once
      its file is gone it has been applied exactly once, if and only if it was not lost between receipt
      and effect. */
  lemma {:induction false} AtMostOnceDispatchExactlyOnceEffects(s: Proto, steps: seq<Step>)
    requires RepliesDisjoint(s) && EventsInv(s)
    ensures var s' := RunAll(s, steps);
            && Progress(s.rows, s'.rows) && RepliesDisjoint(s') && EventsInv(s')
            && (forall e :: multiset(s'.applied)[e] <= 1)
            && (forall e | e in s'.emitted && e !in s'.eventSpool :: multiset(s'.applied)[e] == 1 <==> e !in s'.lost)
    decreases |steps|
  {
    if steps != [] {
      var next := Next(s, steps[0]);
      StepKeepsReplies(s, steps[0]);
      StepKeepsEvents(s, steps[0]);
      StepProgress(s, steps[0]);
      AtMostOnceDispatchExactlyOnceEffects(next, steps[1..]);
      ProgressIsTransitive(s.rows, next.rows, RunAll(next, steps[1..]).rows);
    }
  }

  /** The first handling of the event, if there is any, is cut off between receipt and effect. */
  predicate CutOffAtReceipt(s: Proto, steps: seq<Step>, e: Event)
    decreases |steps|
  {
    if steps == [] || e in s.receipts then false
    else if e in s.emitting && steps[0] == HandleEvent(e) then false
    else if e in s.emitting && steps[0] == CoordinatorCrashInEvent(e) then true
    else CutOffAtReceipt(Next(s, steps[0]), steps[1..], e)
  }

  /** What one step does to the receipt of an event and to its loss. */
  lemma StepRecords(s: Proto, step: Step, e: Event)
    requires e in s.lost ==> e in s.receipts
    ensures var s' := Next(s, step);
            && (e in s.receipts ==> e in s'.receipts && (e in s'.lost <==> e in s.lost))
            && (e !in s.receipts ==>
                  if e in s.emitting && step == HandleEvent(e) then e in s'.receipts && e !in s'.lost
                  else if e in s.emitting && step == CoordinatorCrashInEvent(e) then e in s'.receipts && e in s'.lost
                  else e !in s'.receipts && e !in s'.lost)
  {}

  lemma {:induction false} RecordedStays(s: Proto, steps: seq<Step>, e: Event)
    requires e in s.receipts
    ensures e in RunAll(s, steps).receipts && (e in RunAll(s, steps).lost <==> e in s.lost)
    decreases |steps|
  {
    if steps != [] {
      var next := Next(s, steps[0]);
      StepRecords(s, steps[0], e);
      RecordedStays(next, steps[1..], e);
    }
  }

  /** An event is lost exactly if the coordinator crashes in its first handling, between the receipt and
      the effect: the repetition is then answered as a duplicate. */
  lemma {:induction false} LostIffCutOffAtReceipt(s: Proto, steps: seq<Step>, e: Event)
    requires e !in s.lost
    ensures e in RunAll(s, steps).lost <==> CutOffAtReceipt(s, steps, e)
    decreases |steps|
  {
    if e in s.receipts {
      RecordedStays(s, steps, e);
    } else if steps != [] {
      var next := Next(s, steps[0]);
      StepRecords(s, steps[0], e);
      if e in next.receipts { RecordedStays(next, steps[1..], e); } else { LostIffCutOffAtReceipt(next, steps[1..], e); }
    }
  }

  /** The coordinator crashes after the receipt of a spooled event; the retry is acknowledged and the
      file removed. The event has had no effect. */
  lemma CrashAtReceiptLosesTheEvent(s: Proto, e: Event)
    requires e in s.emitting && e !in s.receipts && EventsInv(s)
    ensures var gone := Next(Next(Next(s, CoordinatorCrashInEvent(e)), HandleEvent(e)), EventDelivered(e));
            && e in gone.emitted && e !in gone.eventSpool && e in gone.lost && multiset(gone.applied)[e] == 0
  {}

  /** A first event of a first command, on its way. */
  function FirstEventSent(): Proto {
    Start().(rows := [Leased(0)], admitted := {0}, emitted := {Event(0, 0)}, eventSpool := {Event(0, 0)}, emitting := {Event(0, 0)})
  }

  lemma FirstEventMayBeLost(s: Proto, e: Event)
    requires s == FirstEventSent() && e == Event(0, 0)
    ensures EventsInv(s) && CommandsInv(s)
    ensures var gone := RunAll(s, [CoordinatorCrashInEvent(e), HandleEvent(e), EventDelivered(e)]);
            e in gone.emitted && e !in gone.eventSpool && multiset(gone.applied)[e] == 0
  {
    assert forall c: CommandId | Claims(s, c) :: c == 0;
    CrashAtReceiptLosesTheEvent(s, e);
    var steps := [CoordinatorCrashInEvent(e), HandleEvent(e), EventDelivered(e)];
    ThreeSteps(s, steps);
  }

  lemma ThreeSteps(s: Proto, steps: seq<Step>)
    requires |steps| == 3
    ensures RunAll(s, steps) == Next(Next(Next(s, steps[0]), steps[1]), steps[2])
  {
    var s1 := Next(s, steps[0]);
    assert steps[1..][1..] == [steps[2]] && [steps[2]][1..] == [];
    assert RunAll(Next(s1, steps[1]), [steps[2]]) == RunAll(Next(Next(s1, steps[1]), steps[2]), []);
  }

  lemma ProgressIsTransitive(a: seq<Command>, b: seq<Command>, c: seq<Command>)
    requires Progress(a, b) && Progress(b, c)
    ensures Progress(a, c)
  {}

  lemma {:induction false} SpooledStays(s: Proto, steps: seq<Step>, c: CommandId)
    requires c in s.spooled
    ensures var s' := RunAll(s, steps); c in s'.spooled && s'.spooled[c] == s.spooled[c]
    decreases |steps|
  {
    if steps != [] { SpooledStays(Next(s, steps[0]), steps[1..], c); }
  }

  lemma {:induction false} RunKeepsClaims(s: Proto, steps: seq<Step>)
    requires CommandsInv(s) && AllTimely(s, steps)
    ensures CommandsInv(RunAll(s, steps))
    decreases |steps|
  {
    if steps != [] {
      StepKeepsClaims(s, steps[0]);
      RunKeepsClaims(Next(s, steps[0]), steps[1..]);
    }
  }

  /** Once a completion is spooled its command is never reported as uncertain: over runner crashes,
      lost replies and repeated requests it stays leased or ends as spooled, and it has ended as
      spooled as soon as the spool file is gone. */
  lemma SpooledWorkIsNeverUncertain(s: Proto, steps: seq<Step>, c: CommandId)
    requires CommandsInv(s) && AllTimely(s, steps) && c in s.spooled
    ensures var s' := RunAll(s, steps);
            && c < |s'.rows|
            && (s'.rows[c].Leased? || s'.rows[c] == Finished(s.spooled[c]))
            && (c !in s'.spool ==> s'.rows[c] == Finished(s.spooled[c]))
  {
    RunKeepsClaims(s, steps);
    SpooledStays(s, steps, c);
    var s' := RunAll(s, steps);
    assert c in s'.spool ==> Claims(s', c);
  }

  /** And the coordinator can always still learn it: sending the file once brings the result. */
  lemma SpooledWorkCanBeDelivered(s: Proto, c: CommandId)
    requires CommandsInv(s) && c in s.spool
    ensures var s' := Next(Next(Next(s, SendCompletion(c)), HandleCompletion(c)), CompletionDelivered(c));
            c < |s'.rows| && s'.rows[c] == Finished(s.spooled[c]) && c !in s'.spool
  {
    assert Claims(s, c);
  }

  lemma StartIsSound()
    ensures CommandsInv(Start()) && RepliesDisjoint(Start()) && EventsInv(Start())
  {
    assert forall c: CommandId :: !Claims(Start(), c);
  }

  /** So from the start on all of this holds, over any steps with timely heartbeats. */
  lemma SoundFromTheStart(steps: seq<Step>)
    requires AllTimely(Start(), steps)
    ensures var s' := RunAll(Start(), steps); CommandsInv(s') && RepliesDisjoint(s') && EventsInv(s')
  {
    StartIsSound();
    RunKeepsClaims(Start(), steps);
    AtMostOnceDispatchExactlyOnceEffects(Start(), steps);
  }

  /** A command is leased and its completion spooled while an empty heartbeat, sent before, is still
      on its way. */
  function BeforeLateHeartbeat(): Proto {
    Start().(clock := 1, rows := [Leased(1)], polls := [Answered([0])], admitted := {0},
             heartbeats := {Heartbeat({}, 0)}, spool := map[0 := Result(7)], spooled := map[0 := Result(7)])
  }

  /** A heartbeat that takes longer than the lease age fails finished work. */
  lemma LateHeartbeatLosesWork(s: Proto, h: Heartbeat)
    requires s == BeforeLateHeartbeat() && h == Heartbeat({}, 0)
    ensures CommandsInv(s)
    ensures var late := Next(s, Tick(LEASE_AGE + 1));
            CommandsInv(late) && Next(late, HandleHeartbeat(h)).rows[0] == Finished(Uncertain)
  {
    assert forall c: CommandId | Claims(s, c) :: c == 0;
    StepKeepsClaims(s, Tick(LEASE_AGE + 1));
  }
}
