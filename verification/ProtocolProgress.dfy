/** What the runner protocol achieves, beside what it never does: work is handed out and its result recorded, events
    take effect, and after a crash of the runner finished work is delivered and unfinished work reported. */
module ProtocolProgress {
  import opened Rows
  import opened Commands
  import opened Protocol

  // ----- running steps -----

  lemma {:induction false} RunAllJoin(s: Proto, a: seq<Step>, b: seq<Step>)
    ensures RunAll(s, a + b) == RunAll(RunAll(s, a), b)
    ensures AllTimely(s, a + b) <==> AllTimely(s, a) && AllTimely(RunAll(s, a), b)
    decreases |a|
  {
    if a == [] {
      assert a + b == b;
    } else {
      assert (a + b)[1..] == a[1..] + b && (a + b)[0] == a[0];
      RunAllJoin(Next(s, a[0]), a[1..], b);
    }
  }

  lemma RunOne(s: Proto, step: Step)
    ensures RunAll(s, [step]) == Next(s, step)
    ensures AllTimely(s, [step]) <==> Timely(s, step)
  {
    assert [step][1..] == [];
    assert RunAll(Next(s, step), []) == Next(s, step);
  }

  lemma RunThree(s: Proto, a: Step, b: Step, c: Step)
    ensures RunAll(s, [a, b, c]) == Next(Next(Next(s, a), b), c)
    ensures AllTimely(s, [a, b, c]) <==> Timely(s, a) && Timely(Next(s, a), b) && Timely(Next(Next(s, a), b), c)
  {
    assert [a, b, c] == [a] + ([b] + [c]);
    RunAllJoin(s, [a], [b] + [c]);
    RunAllJoin(Next(s, a), [b], [c]);
    RunOne(s, a);
    RunOne(Next(s, a), b);
    RunOne(Next(Next(s, a), b), c);
  }

  predicate IsHeartbeat(step: Step) { step.HandleHeartbeat? || step.CoordinatorCrashInHeartbeat? }

  lemma StepKeepsInvariants(s: Proto, step: Step)
    requires CommandsInv(s) && EventsInv(s) && !IsHeartbeat(step)
    ensures Timely(s, step) && CommandsInv(Next(s, step)) && EventsInv(Next(s, step))
  {
    StepKeepsClaims(s, step);
    StepKeepsEvents(s, step);
  }

  lemma ThreeKeepInvariants(s: Proto, a: Step, b: Step, c: Step)
    requires CommandsInv(s) && EventsInv(s) && !IsHeartbeat(a) && !IsHeartbeat(b) && !IsHeartbeat(c)
    ensures var steps := [a, b, c]; AllTimely(s, steps) && CommandsInv(RunAll(s, steps)) && EventsInv(RunAll(s, steps))
  {
    RunThree(s, a, b, c);
    StepKeepsInvariants(s, a);
    StepKeepsInvariants(Next(s, a), b);
    StepKeepsInvariants(Next(Next(s, a), b), c);
  }

  // ----- delivering one file -----

  /** Three steps deliver a completion: they put it in the network, record it, and remove the file. */
  function Delivered(s: Proto, c: CommandId): Proto
    requires c in s.spool
  {
    s.(deliveries := s.deliveries[c := s.spool[c]], rows := Finish(s.rows, c, s.spool[c]), answered := s.answered + {c},
       spool := s.spool - {c}, admitted := s.admitted - {c})
  }

  lemma SendStep(s: Proto, c: CommandId)
    requires c in s.spool
    ensures Next(s, SendCompletion(c)) == s.(deliveries := s.deliveries[c := s.spool[c]])
  {}

  lemma HandleStep(s: Proto, c: CommandId)
    requires c in s.deliveries
    ensures Next(s, HandleCompletion(c)) == s.(rows := Finish(s.rows, c, s.deliveries[c]), answered := s.answered + {c})
  {}

  lemma DeliveredStep(s: Proto, c: CommandId)
    requires c in s.spool && c in s.answered
    ensures Next(s, CompletionDelivered(c)) == s.(spool := s.spool - {c}, admitted := s.admitted - {c})
  {}

  lemma CompletionSteps(s: Proto, c: CommandId)
    requires c in s.spool
    ensures RunAll(s, [SendCompletion(c), HandleCompletion(c), CompletionDelivered(c)]) == Delivered(s, c)
  {
    var s1 := s.(deliveries := s.deliveries[c := s.spool[c]]);
    var s2 := s1.(rows := Finish(s.rows, c, s.spool[c]), answered := s.answered + {c});
    SendStep(s, c);
    HandleStep(s1, c);
    DeliveredStep(s2, c);
    assert s2.(spool := s2.spool - {c}, admitted := s2.admitted - {c}) == Delivered(s, c);
    RunThree(s, SendCompletion(c), HandleCompletion(c), CompletionDelivered(c));
  }

  /** And an event: handled once, however often it arrives. */
  function Applied(s: Proto, e: Event): Proto {
    s.(emitting := s.emitting + {e}, eventSpool := s.eventSpool - {e}, receipts := s.receipts + {e},
       applied := if e in s.receipts then s.applied else s.applied + [e])
  }

  lemma HandleEventStep(s: Proto, e: Event)
    requires e in s.emitting
    ensures Next(s, HandleEvent(e)) ==
              s.(receipts := s.receipts + {e}, applied := if e in s.receipts then s.applied else s.applied + [e])
  {}

  lemma EventSteps(s: Proto, e: Event)
    requires e in s.eventSpool
    ensures RunAll(s, [SendEvent(e), HandleEvent(e), EventDelivered(e)]) == Applied(s, e)
  {
    var s1 := s.(emitting := s.emitting + {e});
    var s2 := s1.(receipts := s.receipts + {e}, applied := if e in s.receipts then s.applied else s.applied + [e]);
    assert Next(s, SendEvent(e)) == s1;
    HandleEventStep(s1, e);
    assert Next(s2, EventDelivered(e)) == s2.(eventSpool := s.eventSpool - {e});
    RunThree(s, SendEvent(e), HandleEvent(e), EventDelivered(e));
  }

  // ----- a command's way -----

  /** The waiting commands before this one. */
  ghost function Ahead(rows: seq<Command>, c: CommandId): set<CommandId>
    requires c <= |rows|
  {
    set b: CommandId | b < c && rows[b].Pending?
  }

  lemma {:induction false} AscendingCount(s: seq<CommandId>, S: set<CommandId>)
    requires Ascending(s) && forall c | c in s :: c in S
    ensures |s| <= |S|
    decreases |s|
  {
    if s != [] {
      var last := s[|s| - 1];
      var rest := s[..|s| - 1];
      forall c | c in rest ensures c in S - {last} {
        var i :| 0 <= i < |rest| && rest[i] == c;
        assert s[i] < last;
      }
      AscendingCount(rest, S - {last});
    }
  }

  lemma AmongTheTen(rows: seq<Command>, c: CommandId)
    requires c < |rows| && rows[c].Pending? && |Ahead(rows, c)| < 10
    ensures c in Batch(rows)
  {
    BatchIsOldestTen(rows);
    if c !in Batch(rows) { AscendingCount(Batch(rows), Ahead(rows, c)); }
  }

  /** A waiting command with fewer than ten waiting before it is taken by one poll: it is leased as of now and the runner
      has admitted it. */
  lemma OnePollTakesIt(s: Proto, c: CommandId)
    requires s.phase.Serving? && s.awaiting.None? && c < |s.rows| && s.rows[c].Pending? && |Ahead(s.rows, c)| < 10
    ensures var s' := RunAll(s, [SendPoll, HandlePoll(|s.polls|), ReceiveBatch]);
            && c in s'.admitted && c < |s'.rows| && s'.rows[c] == Leased(s.clock) && s'.awaiting.None? && s'.phase.Serving?
            && s'.spooled == s.spooled
  {
    AmongTheTen(s.rows, c);
    RunThree(s, SendPoll, HandlePoll(|s.polls|), ReceiveBatch);
    var s1 := Next(s, SendPoll);
    var s2 := Next(s1, HandlePoll(|s.polls|));
    assert s2.polls[|s.polls|] == Answered(Batch(s.rows));
    assert Next(s2, ReceiveBatch).rows == s2.rows;
  }

  lemma WaitingIsNotSpooled(s: Proto, c: CommandId)
    requires CommandsInv(s) && c < |s.rows| && s.rows[c].Pending?
    ensures c !in s.spooled
  {
    assert c in s.spool ==> Claims(s, c);
  }

  lemma SpooledStep(s: Proto, c: CommandId, outcome: Outcome)
    requires c in s.admitted && c !in s.spooled && !outcome.Uncertain?
    ensures Next(s, SpoolCompletion(c, outcome)) == s.(spool := s.spool[c := outcome], spooled := s.spooled[c := outcome])
  {}

  /** Its completion, whatever it is, is then recorded by one delivery, and the runner is rid of it. */
  lemma CommandRoundTrip(s: Proto, c: CommandId, outcome: Outcome)
    requires CommandsInv(s) && !outcome.Uncertain?
    requires s.phase.Serving? && s.awaiting.None? && c < |s.rows| && s.rows[c].Pending? && |Ahead(s.rows, c)| < 10
    ensures var taken := RunAll(s, [SendPoll, HandlePoll(|s.polls|), ReceiveBatch]);
            var done := RunAll(Next(taken, SpoolCompletion(c, outcome)), [SendCompletion(c), HandleCompletion(c), CompletionDelivered(c)]);
            c < |done.rows| && done.rows[c] == Finished(outcome) && c !in done.spool && c !in done.admitted
  {
    OnePollTakesIt(s, c);
    WaitingIsNotSpooled(s, c);
    var taken := RunAll(s, [SendPoll, HandlePoll(|s.polls|), ReceiveBatch]);
    SpooledStep(taken, c, outcome);
    CompletionSteps(Next(taken, SpoolCompletion(c, outcome)), c);
  }

  /** An event of an admitted command takes effect by one delivery, after everything before it, and its file is removed. */
  lemma EventRoundTrip(s: Proto, e: Event)
    requires e.command in s.admitted && e !in s.emitted && e !in s.receipts
    ensures var done := RunAll(Next(s, SpoolEvent(e)), [SendEvent(e), HandleEvent(e), EventDelivered(e)]);
            done.applied == s.applied + [e] && e in done.receipts && e !in done.eventSpool
  {
    EventSteps(Next(s, SpoolEvent(e)), e);
  }

  /** A heartbeat reports a lease as lost exactly if it does not list the command and the lease is more than 45 seconds
      old; it changes no other row. */
  lemma LostLeaseIsReportedIff(s: Proto, h: Heartbeat, c: CommandId)
    requires h in s.heartbeats && c < |s.rows|
    ensures var rows' := Next(s, HandleHeartbeat(h)).rows;
            && |rows'| == |s.rows|
            && (s.rows[c].Leased? ==> rows'[c] == if c !in h.active && s.rows[c].at + 45_000 < s.clock then Finished(Uncertain) else s.rows[c])
            && (!s.rows[c].Leased? ==> rows'[c] == s.rows[c])
  {}

  /** A reply that never arrives: the runner gives up waiting, and the commands in it are reported by its next heartbeat
      once their leases are too old. */
  lemma LostReplyIsReported(s: Proto, c: CommandId, delay: nat)
    requires s.phase.Serving? && c < |s.rows| && s.rows[c].Leased? && c !in s.admitted && s.rows[c].at + 45_000 < s.clock + delay
    ensures var waiting := Next(Next(s, GiveUpPoll), Tick(delay));
            var reported := Next(Next(waiting, SendHeartbeat), HandleHeartbeat(Heartbeat(s.admitted, s.clock + delay)));
            c < |reported.rows| && reported.rows[c] == Finished(Uncertain)
  {
    var waiting := Next(Next(s, GiveUpPoll), Tick(delay));
    LostLeaseIsReportedIff(Next(waiting, SendHeartbeat), Heartbeat(s.admitted, s.clock + delay), c);
  }

  /** A new command waits behind all others. A coordinator that crashes inside a poll has leased the first commands of the
      batch and sent no reply; one that crashes inside a heartbeat has failed what the heartbeat fails among the first
      rows. */
  lemma CoordinatorStepOutcomes(s: Proto, i: nat, h: Heartbeat, n: nat, c: CommandId)
    ensures Next(s, Enqueue) == s.(rows := s.rows + [Pending])
    ensures var cut := Next(s, CoordinatorCrashInPoll(i, n));
            i < |s.polls| && s.polls[i].Asked? && n <= |Batch(s.rows)| && c < |s.rows| ==>
              && cut == s.(rows := cut.rows) && |cut.rows| == |s.rows|
              && cut.rows[c] == if c in Batch(s.rows)[..n] then Leased(s.clock) else s.rows[c]
    ensures var cut := Next(s, CoordinatorCrashInHeartbeat(h, n));
            h in s.heartbeats && n <= |s.rows| && c < |s.rows| ==>
              && cut == s.(rows := cut.rows) && |cut.rows| == |s.rows|
              && cut.rows[c] == if c < n then Next(s, HandleHeartbeat(h)).rows[c] else s.rows[c]
  {
    BatchIsOldestTen(s.rows);
    if n <= |Batch(s.rows)| && c in Batch(s.rows)[..n] { assert c in Batch(s.rows); }
  }

  // ----- after a crash of the runner -----

  /** What flushing the spool leaves alone. */
  ghost predicate Flushed(s: Proto, s': Proto) {
    && s'.phase == s.phase && s'.awaiting == s.awaiting && s'.clock == s.clock && s'.heartbeats == s.heartbeats && s'.polls == s.polls
    && s'.spooled == s.spooled && s'.emitted == s.emitted && s'.admitted <= s.admitted && |s'.rows| == |s.rows|
    && s.receipts <= s'.receipts && (forall c: CommandId | c < |s.rows| && c !in s.spooled :: s'.rows[c] == s.rows[c])
  }

  lemma FlushCompletion(s: Proto, c: CommandId)
    requires CommandsInv(s) && EventsInv(s) && c in s.spool
    ensures var steps := [SendCompletion(c), HandleCompletion(c), CompletionDelivered(c)]; var s' := RunAll(s, steps);
            && AllTimely(s, steps) && CommandsInv(s') && EventsInv(s') && Flushed(s, s')
            && s'.spool == s.spool - {c} && s'.eventSpool == s.eventSpool
  {
    CompletionSteps(s, c);
    ThreeKeepInvariants(s, SendCompletion(c), HandleCompletion(c), CompletionDelivered(c));
    assert c in s.spooled;
  }

  lemma FlushEvent(s: Proto, e: Event)
    requires CommandsInv(s) && EventsInv(s) && e in s.eventSpool
    ensures var steps := [SendEvent(e), HandleEvent(e), EventDelivered(e)]; var s' := RunAll(s, steps);
            && AllTimely(s, steps) && CommandsInv(s') && EventsInv(s') && Flushed(s, s')
            && s'.spool == s.spool && s'.eventSpool == s.eventSpool - {e}
  {
    EventSteps(s, e);
    ThreeKeepInvariants(s, SendEvent(e), HandleEvent(e), EventDelivered(e));
  }

  /** Files are delivered one after the other until none is left. */
  lemma {:induction false} FlushAll(s: Proto) returns (steps: seq<Step>)
    requires CommandsInv(s) && EventsInv(s)
    ensures var s' := RunAll(s, steps);
            && AllTimely(s, steps) && CommandsInv(s') && EventsInv(s') && Flushed(s, s') && s'.spool == map[] && s'.eventSpool == {}
    decreases |s.spool.Keys| + |s.eventSpool|
  {
    if c :| c in s.spool {
      FlushCompletion(s, c);
      var first := [SendCompletion(c), HandleCompletion(c), CompletionDelivered(c)];
      assert RunAll(s, first).spool.Keys == s.spool.Keys - {c};
      var rest := FlushAll(RunAll(s, first));
      RunAllJoin(s, first, rest);
      steps := first + rest;
    } else if e :| e in s.eventSpool {
      FlushEvent(s, e);
      var first := [SendEvent(e), HandleEvent(e), EventDelivered(e)];
      var rest := FlushAll(RunAll(s, first));
      RunAllJoin(s, first, rest);
      steps := first + rest;
    } else {
      steps := [];
    }
  }

  /** After a crash of the runner at any point some steps bring it back to serving with an empty spool; then every
      completion it ever wrote is recorded as written, every event has been received, and it answers for nothing. */
  lemma CrashIsRecovered(s: Proto) returns (steps: seq<Step>)
    requires CommandsInv(s) && EventsInv(s)
    ensures var s' := RunAll(Next(s, Crash), steps);
            && AllTimely(Next(s, Crash), steps) && CommandsInv(s') && EventsInv(s')
            && s'.phase.Serving? && s'.awaiting.None? && s'.admitted == {} && s'.spool == map[] && s'.eventSpool == {}
            && (forall c | c in s.spooled :: c < |s'.rows| && s'.rows[c] == Finished(s.spooled[c]))
            && (forall e | e in s.emitted :: e in s'.receipts)
            && s'.clock == s.clock && |s'.rows| == |s.rows|
            && (forall c: CommandId | c < |s.rows| && c !in s.spooled :: s'.rows[c] == s.rows[c])
  {
    var s0 := Next(s, Crash);
    CrashForgets(s);
    StepKeepsInvariants(s, Crash);
    var flush := FlushAll(s0);
    var s1 := RunAll(s0, flush);
    RunAllJoin(s0, flush, [StartServing]);
    RunOne(s1, StartServing);
    ServingAgain(s1);
    StepKeepsInvariants(s1, StartServing);
    steps := flush + [StartServing];
    forall c | c in s.spooled ensures c < |s1.rows| && s1.rows[c] == Finished(s.spooled[c]) { assert c in s1.spooled && c in s1.answered; }
    forall e | e in s.emitted ensures e in s1.receipts { assert e in s1.emitted; }
  }

  lemma CrashForgets(s: Proto)
    ensures Next(s, Crash) == s.(phase := Flushing, awaiting := None, admitted := {})
  {}

  lemma ServingAgain(s: Proto)
    requires s.phase.Flushing? && s.spool == map[] && s.eventSpool == {}
    ensures Next(s, StartServing) == s.(phase := Serving)
  {}

  /** Work the crash took, admitted but not completed, is reported: once its lease is more than 45 seconds old, the next
      heartbeat of the recovered runner fails it as uncertain, so that nobody waits for it for ever. */
  lemma TakenWorkIsReported(s: Proto, c: CommandId, delay: nat) returns (steps: seq<Step>)
    requires CommandsInv(s) && EventsInv(s) && c < |s.rows| && s.rows[c].Leased? && c !in s.spooled
    requires s.rows[c].at + 45_000 < s.clock + delay
    ensures AllTimely(Next(s, Crash), steps)
    ensures var s' := RunAll(Next(s, Crash), steps); c < |s'.rows| && s'.rows[c] == Finished(Uncertain)
  {
    var back := CrashIsRecovered(s);
    var s1 := RunAll(Next(s, Crash), back);
    var h := Heartbeat({}, s1.clock + delay);
    var report := [Tick(delay), SendHeartbeat, HandleHeartbeat(h)];
    RunThree(s1, Tick(delay), SendHeartbeat, HandleHeartbeat(h));
    LostLeaseIsReportedIff(Next(Next(s1, Tick(delay)), SendHeartbeat), h, c);
    RunAllJoin(Next(s, Crash), back, report);
    steps := back + report;
  }
}
