/** The runner process (runtime/runner.ts): its set of admitted commands and its spool directory, as the
    steps of `Protocol` see them. */
module RunnerProcess {
  import opened Rows
  import opened Commands
  import opened Protocol

  /** What the runner holds in memory and on disk. */
  datatype View = View(phase: Phase, awaiting: Option<nat>, admitted: set<CommandId>, spool: map<CommandId, Outcome>,
                       eventSpool: set<Event>)

  function ViewOf(s: Proto): View { View(s.phase, s.awaiting, s.admitted, s.spool, s.eventSpool) }

  /** Applies to a protocol state whose runner looks like this. */
  ghost predicate Follows(before: View, step: Step, after: View, ready: Proto -> bool) {
    forall s: Proto | ViewOf(s) == before && ready(s) :: ViewOf(Protocol.Next(s, step)) == after
  }

  /** A file of the spool directory: a completion, an event, or one that cannot be read. */
  datatype File = CompletionFile(command: CommandId) | EventFile(event: Event) | Unreadable(name: nat)

  ghost predicate OnDisk(files: seq<File>, spool: map<CommandId, Outcome>, events: set<Event>, unreadable: set<nat>) {
    && (forall c :: CompletionFile(c) in files <==> c in spool)
    && (forall e :: EventFile(e) in files <==> e in events)
    && (forall u :: Unreadable(u) in files <==> u in unreadable)
    && forall i, j | 0 <= i < j < |files| :: files[i] != files[j]
  }

  function Readable(files: seq<File>): seq<File> {
    if files == [] then []
    else
      var n := |files| - 1;
      Readable(files[..n]) + if files[n].Unreadable? then [] else [files[n]]
  }

  /** A delivered file is handled by the coordinator, then removed; one that cannot be read is skipped. */
  function Deliver(v: View, f: File): View {
    match f
    case CompletionFile(c) => v.(spool := v.spool - {c}, admitted := v.admitted - {c})
    case EventFile(e) => v.(eventSpool := v.eventSpool - {e})
    case Unreadable(_) => v
  }

  function DeliverAll(v: View, files: seq<File>): View {
    if files == [] then v else Deliver(DeliverAll(v, files[..|files| - 1]), files[|files| - 1])
  }

  lemma {:induction false} DeliverAllRemoves(v: View, files: seq<File>)
    ensures var w := DeliverAll(v, files);
            && w.phase == v.phase && w.awaiting == v.awaiting
            && (forall c :: c in w.spool <==> c in v.spool && CompletionFile(c) !in files)
            && (forall e :: e in w.eventSpool <==> e in v.eventSpool && EventFile(e) !in files)
            && (forall c :: c in w.admitted <==> c in v.admitted && CompletionFile(c) !in files)
  {
    if files != [] {
      var n := |files| - 1;
      DeliverAllRemoves(v, files[..n]);
      assert files == files[..n] + [files[n]];
    }
  }

  /** Files that list the directory leave nothing that could be read. */
  lemma FlushedIsEmpty(v: View, files: seq<File>, unreadable: set<nat>)
    requires OnDisk(files, v.spool, v.eventSpool, unreadable)
    ensures DeliverAll(v, files) == View(v.phase, v.awaiting, v.admitted - v.spool.Keys, map[], {})
  {
    var w := DeliverAll(v, files);
    DeliverAllRemoves(v, files);
    assert w.spool.Keys == {} && w.eventSpool == {};
    assert w.admitted == v.admitted - v.spool.Keys;
  }

  class Runner {
    var phase: Phase
    var awaiting: Option<nat>
    var admittedCommands: set<CommandId>
    var spool: map<CommandId, Outcome>
    var eventSpool: set<Event>

    /** Half-written files of a process that died; nobody ever sent or will send them. */
    var unreadable: set<nat>

    function Looks(): View
      reads this
    {
      View(phase, awaiting, admittedCommands, spool, eventSpool)
    }

    /** A new process on the files of the last one: what the crash step leaves. */
    constructor (spool: map<CommandId, Outcome>, events: set<Event>, unreadable: set<nat>)
      ensures Looks() == View(Flushing, None, {}, spool, events) && this.unreadable == unreadable
      ensures forall last: View | last.spool == spool && last.eventSpool == events :: Follows(last, Crash, Looks(), (s: Proto) => true)
    {
      phase, awaiting, admittedCommands := Flushing, None, {};
      this.spool, eventSpool, this.unreadable := spool, events, unreadable;
    }

    /** Delivers one file; a completion that is gone already would fail. */
    method DeliverFile(f: File)
      requires f.CompletionFile? ==> f.command in spool
      modifies this`admittedCommands, this`spool, this`eventSpool
      ensures Looks() == Deliver(old(Looks()), f)
    {
      match f {
        case CompletionFile(c) => CompletionFileDelivered(c);
        case EventFile(e) => eventSpool := eventSpool - {e};
        case Unreadable(_) =>
      }
    }

    /** `flushSpool`: in directory order every file that can be read is delivered and removed; the others are
        skipped and stay. Then the runner serves. */
    method FlushSpool(files: seq<File>) returns (delivered: seq<File>)
      requires phase.Flushing? && OnDisk(files, spool, eventSpool, unreadable)
      modifies this`phase, this`admittedCommands, this`spool, this`eventSpool
      ensures delivered == Readable(files)
      ensures Looks() == View(Serving, awaiting, old(admittedCommands) - old(spool).Keys, map[], {})
    {
      ghost var before := Looks();
      delivered := [];
      var i := 0;
      while i < |files|
        invariant 0 <= i <= |files| && delivered == Readable(files[..i])
        invariant Looks() == DeliverAll(before, files[..i])
      {
        assert files[..i + 1][..i] == files[..i];
        assert files[i] !in files[..i];
        DeliverAllRemoves(before, files[..i]);
        DeliverFile(files[i]);
        if !files[i].Unreadable? { delivered := delivered + [files[i]]; }
        i := i + 1;
      }
      assert files[..i] == files;
      FlushedIsEmpty(before, files, unreadable);
      phase := Serving;
    }

    /** The answer to a poll: commands that are not running yet are started, each once. */
    method ReceiveBatch(batch: seq<CommandId>) returns (started: seq<CommandId>)
      requires awaiting.Some?
      modifies this`admittedCommands, this`awaiting
      ensures Follows(old(Looks()), Step.ReceiveBatch, Looks(), (s: Proto) =>
                s.awaiting.Some? && s.awaiting.value < |s.polls| && s.polls[s.awaiting.value] == Answered(batch))
      ensures forall c :: c in started <==> c in batch && c !in old(admittedCommands)
      ensures forall i, j | 0 <= i < j < |started| :: started[i] != started[j]
    {
      started := [];
      var i := 0;
      while i < |batch|
        invariant 0 <= i <= |batch| && awaiting == old(awaiting)
        invariant forall c :: c in admittedCommands <==> c in old(admittedCommands) || c in batch[..i]
        invariant forall c :: c in started <==> c in batch[..i] && c !in old(admittedCommands)
        invariant forall i, j | 0 <= i < j < |started| :: started[i] != started[j]
      {
        if batch[i] !in admittedCommands {
          admittedCommands := admittedCommands + {batch[i]};
          started := started + [batch[i]];
        }
        i := i + 1;
      }
      assert batch[..i] == batch;
      awaiting := None;
      assert admittedCommands == old(admittedCommands) + set c | c in batch;
    }

    /** The first half of `finish`: the completion is on disk before anything is sent. */
    method SpoolResult(c: CommandId, outcome: Outcome)
      requires c in admittedCommands && !outcome.Uncertain?
      modifies this`spool
      ensures Follows(old(Looks()), SpoolCompletion(c, outcome), Looks(), (s: Proto) => c !in s.spooled)
    {
      spool := spool[c := outcome];
    }

    /** The second half: the request was answered, the file goes, and the command is no longer admitted. */
    method CompletionFileDelivered(c: CommandId)
      requires c in spool
      modifies this`spool, this`admittedCommands
      ensures Follows(old(Looks()), CompletionDelivered(c), Looks(), (s: Proto) => c in s.answered)
      ensures spool == old(spool) - {c} && admittedCommands == old(admittedCommands) - {c}
    {
      spool := spool - {c};
      admittedCommands := admittedCommands - {c};
    }

    /** The commands listed in a heartbeat are exactly the admitted ones. */
    method HeartbeatList() returns (active: set<CommandId>)
      ensures forall s: Proto | ViewOf(s) == Looks() && s.phase.Serving? && s.awaiting.None? ::
                Heartbeat(active, s.clock) in Protocol.Next(s, SendHeartbeat).heartbeats
    {
      active := admittedCommands;
    }
  }
}
