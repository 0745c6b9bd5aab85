/** The line protocol with an agent's gateway process (runtime/hermes.ts): requests and their
    replies, events, and how a submitted prompt is settled. */
module Gateway {
  import opened Rows

  /** The answer to a request: its result, and whether that is the `streaming` acknowledgement, or
      the error the request is rejected with. */
  datatype Reply = Result(streaming: bool, value: nat) | Rejected(error: Error)

  datatype Error = Reported(message: nat) | NotRunning | TimedOut | Exited(code: int) | Unconfirmed | Halted

  datatype Kind = Complete(status: Status, value: nat) | Failure(message: nat) | Progress

  datatype Status = Ok | Erroneous | Stopped

  /** Events without a session belong to none. */
  datatype Event = Event(session: Option<nat>, kind: Kind)

  datatype Settlement = Resolved(value: nat) | Broken(error: Error, interrupted: bool)

  /** What reaches the gateway object. A line is a parsed JSON value: its `id`, the reply it is for
      that request, and the event it is for everyone else. `Continuation` is the moment the handler of
      the prompt's own request runs, some time after that request is settled; `Halt` is a call of `stop`. */
  datatype Input =
    | Spawn
    | Request
    | Submit(session: nat)
    | Line(id: Option<nat>, reply: Reply, event: Event)
    | Exit(code: int)
    | Halt
    | RequestTimeout(request: nat)
    | PromptTimeout(prompt: nat)
    | Continuation(prompt: nat)

  // ----- requests -----

  /** `settled` remembers how each request promise ended. */
  datatype Calls = Calls(running: bool, last: nat, pending: set<nat>, settled: map<nat, Reply>)

  function Settle(c: Calls, id: nat, reply: Reply): Calls
    requires id in c.pending
  {
    c.(pending := c.pending - {id}, settled := c.settled[id := reply])
  }

  function NextCalls(c: Calls, i: Input): Calls {
    match i
    case Spawn => c.(running := true)
    case Request => if c.running then c.(last := c.last + 1, pending := c.pending + {c.last + 1}) else c
    case Submit(session) => if c.running then c.(last := c.last + 1, pending := c.pending + {c.last + 1}) else c
    case Line(id, reply, event) => if id.Some? && id.value in c.pending then Settle(c, id.value, reply) else c
    case Exit(code) =>
      c.(running := false, pending := {},
         settled := c.settled + map id | id in c.pending :: Rejected(Exited(code)))
    case Halt => c.(running := false)
    case RequestTimeout(id) => if id in c.pending then Settle(c, id, Rejected(TimedOut)) else c
    case PromptTimeout(p) => c
    case Continuation(p) => c
  }

  // ----- prompts -----

  /** A prompt listens until it is settled. `request` is missing when no process was running. */
  datatype Prompt = Prompt(session: nat, request: Option<nat>, listening: bool, outcome: Option<Settlement>)

  datatype State = State(calls: Calls, prompts: seq<Prompt>)

  /** A promise is settled by the first call; `cleanup` removes the listeners every time. */
  function Close(p: Prompt, how: Settlement): Prompt {
    p.(listening := false, outcome := if p.outcome.Some? then p.outcome else Some(how))
  }

  function Hear(p: Prompt, e: Event): Prompt {
    if !p.listening || e.session != Some(p.session) then p
    else match e.kind
         case Progress => p
         case Failure(message) => Close(p, Broken(Reported(message), false))
         case Complete(status, value) =>
           if status.Ok? then Close(p, Resolved(value)) else Close(p, Broken(Reported(value), status.Stopped?))
  }

  function HearAll(prompts: seq<Prompt>, e: Event): (prompts': seq<Prompt>)
    ensures |prompts'| == |prompts|
  {
    seq(|prompts|, i requires 0 <= i < |prompts| => Hear(prompts[i], e))
  }

  function AbandonAll(prompts: seq<Prompt>, error: Error): (prompts': seq<Prompt>)
    ensures |prompts'| == |prompts|
  {
    seq(|prompts|, i requires 0 <= i < |prompts| =>
      if prompts[i].listening then Close(prompts[i], Broken(error, true)) else prompts[i])
  }

  /** How a prompt's own request has ended, if it has. */
  function OwnReply(c: Calls, request: Option<nat>): Option<Reply> {
    if request.None? then Some(Rejected(NotRunning))
    else if request.value in c.settled then Some(c.settled[request.value])
    else None
  }

  function Interrupts(e: Error): bool { e.Exited? || e.Unconfirmed? }

  function Continue(c: Calls, p: Prompt): Prompt {
    match OwnReply(c, p.request)
    case None => p
    case Some(Rejected(error)) => Close(p, Broken(error, Interrupts(error)))
    case Some(Result(streaming, value)) => if streaming then p else Close(p, Resolved(value))
  }

  function Next(g: State, i: Input): State {
    var calls := NextCalls(g.calls, i);
    match i
    case Submit(session) =>
      State(calls, g.prompts + [Prompt(session, if g.calls.running then Some(calls.last) else None, true, None)])
    case Line(id, reply, event) =>
      State(calls, if id.Some? && id.value in g.calls.pending then g.prompts else HearAll(g.prompts, event))
    case Exit(code) => State(calls, AbandonAll(g.prompts, Exited(code)))
    case Halt => State(calls, AbandonAll(g.prompts, Halted))
    case PromptTimeout(p) =>
      State(calls, if p < |g.prompts| && g.prompts[p].listening
                   then g.prompts[p := Close(g.prompts[p], Broken(Unconfirmed, true))] else g.prompts)
    case Continuation(p) =>
      State(calls, if p < |g.prompts| then g.prompts[p := Continue(g.calls, g.prompts[p])] else g.prompts)
    case _ => State(calls, g.prompts)
  }

  function RunAll(g: State, inputs: seq<Input>): State
    decreases |inputs|
  {
    if inputs == [] then g else RunAll(Next(g, inputs[0]), inputs[1..])
  }

  // ----- each request is settled once, by its own reply -----

  /** Every request ever made is either pending or settled. */
  ghost predicate CallsInv(c: Calls) {
    && c.pending !! c.settled.Keys
    && forall id: nat :: (id in c.pending || id in c.settled) <==> 1 <= id <= c.last
  }

  lemma NextKeepsCallsInv(c: Calls, i: Input)
    requires CallsInv(c)
    ensures CallsInv(NextCalls(c, i)) && c.last <= NextCalls(c, i).last
  {}

  /** The answer an input gives to a waiting request: the line with its number, its timeout, or the end
      of the process. */
  function AnswerTo(id: nat, i: Input): Option<Reply> {
    match i
    case Line(own, reply, event) => if own == Some(id) then Some(reply) else None
    case RequestTimeout(own) => if own == id then Some(Rejected(TimedOut)) else None
    case Exit(code) => Some(Rejected(Exited(code)))
    case _ => None
  }

  function FirstAnswer(id: nat, inputs: seq<Input>): Option<Reply> {
    if inputs == [] then None
    else if AnswerTo(id, inputs[0]).Some? then AnswerTo(id, inputs[0])
    else FirstAnswer(id, inputs[1..])
  }

  /** In one step only waiting requests are settled, each by its own answer, and settled ones keep theirs. */
  lemma RepliesReachTheirRequest(c: Calls, i: Input, id: nat)
    requires CallsInv(c)
    ensures var c' := NextCalls(c, i);
            && (id in c.settled ==> id in c'.settled && c'.settled[id] == c.settled[id] && id !in c'.pending)
            && (id in c.pending ==>
                  if AnswerTo(id, i).Some? then id in c'.settled && c'.settled[id] == AnswerTo(id, i).value && id !in c'.pending
                  else id in c'.pending && id !in c'.settled)
            && (id !in c.settled && id !in c.pending ==> id !in c'.settled)
            && (i.Exit? ==> c'.pending == {})
  {}

  lemma NextStateCalls(g: State, i: Input)
    ensures Next(g, i).calls == NextCalls(g.calls, i)
  {}

  /** Over any inputs every request ever made stays either waiting or settled; a settled one keeps its
      reply for ever, and a waiting one ends with the first answer to it, if there is any. */
  lemma {:induction false} EachRequestIsSettledOnce(g: State, inputs: seq<Input>, id: nat)
    requires CallsInv(g.calls)
    ensures var c' := RunAll(g, inputs).calls;
            && CallsInv(c') && g.calls.last <= c'.last
            && (id in g.calls.settled ==> id in c'.settled && c'.settled[id] == g.calls.settled[id])
            && (id in g.calls.pending ==>
                  if FirstAnswer(id, inputs).Some? then id in c'.settled && c'.settled[id] == FirstAnswer(id, inputs).value
                  else id in c'.pending)
    decreases |inputs|
  {
    if inputs != [] {
      NextStateCalls(g, inputs[0]);
      NextKeepsCallsInv(g.calls, inputs[0]);
      RepliesReachTheirRequest(g.calls, inputs[0], id);
      EachRequestIsSettledOnce(Next(g, inputs[0]), inputs[1..], id);
    }
  }

  // ----- the first decisive input -----

  /** What an input says about a prompt of this session and request, looking only at the requests.
      The acknowledgement, events of other sessions and replies to other requests say nothing. */
  function Decision(c: Calls, session: nat, request: Option<nat>, prompt: nat, i: Input): Option<Settlement> {
    match i
    case Line(id, reply, event) =>
      if (id.Some? && id.value in c.pending) || event.session != Some(session) then None
      else (match event.kind
            case Progress => None
            case Failure(message) => Some(Broken(Reported(message), false))
            case Complete(Ok, value) => Some(Resolved(value))
            case Complete(status, value) => Some(Broken(Reported(value), status == Stopped)))
    case Exit(code) => Some(Broken(Exited(code), true))
    case Halt => Some(Broken(Halted, true))
    case PromptTimeout(p) => if p == prompt then Some(Broken(Unconfirmed, true)) else None
    case Continuation(p) =>
      if p != prompt then None
      else (match OwnReply(c, request)
            case Some(Result(false, value)) => Some(Resolved(value))
            case Some(Rejected(error)) => Some(Broken(error, Interrupts(error)))
            case _ => None)
    case _ => None
  }

  /** The decision of the first input that decides, if any does. */
  function FirstDecision(c: Calls, session: nat, request: Option<nat>, prompt: nat, inputs: seq<Input>): Option<Settlement>
    decreases |inputs|
  {
    if inputs == [] then None
    else
      var decision := Decision(c, session, request, prompt, inputs[0]);
      if decision.Some? then decision
      else FirstDecision(NextCalls(c, inputs[0]), session, request, prompt, inputs[1..])
  }

  ghost predicate ListenersInv(g: State) {
    forall p | p in g.prompts :: p.listening <==> p.outcome.None?
  }

  lemma NextPrompt(g: State, i: Input, p: nat)
    requires ListenersInv(g) && p < |g.prompts|
    ensures var g', was, decision := Next(g, i), g.prompts[p], Decision(g.calls, g.prompts[p].session, g.prompts[p].request, p, i);
            && p < |g'.prompts| && g'.calls == NextCalls(g.calls, i)
            && g'.prompts[p].session == was.session && g'.prompts[p].request == was.request
            && g'.prompts[p].outcome == (if was.outcome.Some? then was.outcome else decision)
            && (g'.prompts[p].listening <==> g'.prompts[p].outcome.None?)
  {
    assert g.prompts[p] in g.prompts;
  }

  lemma NextKeepsListenersInv(g: State, i: Input)
    requires ListenersInv(g)
    ensures ListenersInv(Next(g, i))
  {
    forall p: nat | p < |Next(g, i).prompts|
      ensures Next(g, i).prompts[p].listening <==> Next(g, i).prompts[p].outcome.None?
    {
      if p < |g.prompts| { NextPrompt(g, i, p); }
    }
  }

  /** Over any inputs, in any order, a prompt ends exactly as the first decisive input says, and stays
      open if there is none: later inputs, other prompts and the acknowledgement change nothing, and a
      completion that overtakes the acknowledgement is not lost. */
  lemma {:induction false} FirstDecisiveInputSettles(g: State, inputs: seq<Input>, p: nat)
    requires ListenersInv(g) && p < |g.prompts|
    ensures var g' := RunAll(g, inputs);
            && p < |g'.prompts|
            && g'.prompts[p].outcome ==
               if g.prompts[p].outcome.Some? then g.prompts[p].outcome
               else FirstDecision(g.calls, g.prompts[p].session, g.prompts[p].request, p, inputs)
    decreases |inputs|
  {
    if inputs != [] {
      NextPrompt(g, inputs[0], p);
      NextKeepsListenersInv(g, inputs[0]);
      FirstDecisiveInputSettles(Next(g, inputs[0]), inputs[1..], p);
    }
  }

  /** The requests a prompt waits on: when the process ends nothing is left open. */
  lemma ExitLeavesNothingOpen(g: State, code: int)
    requires ListenersInv(g)
    ensures var g' := Next(g, Exit(code));
            g'.calls.pending == {} && forall p | p in g'.prompts :: p.outcome.Some?
  {
    forall p: nat | p < |g.prompts| ensures Next(g, Exit(code)).prompts[p].outcome.Some? {
      NextPrompt(g, Exit(code), p);
    }
  }

  // ----- how a prompt ends -----

  /** The outcome of prompt `p` after these inputs. */
  function OutcomeAfter(g: State, p: nat, inputs: seq<Input>): Option<Settlement> {
    var g' := RunAll(g, inputs);
    if p < |g'.prompts| then g'.prompts[p].outcome else None
  }

  lemma OneInput(g: State, p: nat, i: Input)
    ensures OutcomeAfter(g, p, [i]) == if p < |Next(g, i).prompts| then Next(g, i).prompts[p].outcome else None
  {
    assert RunAll(Next(g, i), [][..]) == Next(g, i);
    assert [i][1..] == [];
  }

  lemma TwoInputs(g: State, p: nat, i: Input, j: Input)
    ensures OutcomeAfter(g, p, [i, j]) == OutcomeAfter(Next(g, i), p, [j])
  {
    assert [i, j][1..] == [j];
  }

  ghost predicate Open(g: State, p: nat, session: nat) {
    p < |g.prompts| && g.prompts[p].session == session && g.prompts[p].listening && g.prompts[p].outcome.None?
  }

  /** An open prompt ends with its work: completed, stopped by the user, or failed. Events of other sessions say
      nothing. Only the user's stop counts as an interruption. */
  lemma EventsEndPrompts(g: State, p: nat, session: nat, other: nat, value: nat)
    requires Open(g, p, session) && other != session
    ensures var silent := Rejected(NotRunning);
            && OutcomeAfter(g, p, [Line(None, silent, Event(Some(session), Complete(Ok, value)))]) == Some(Resolved(value))
            && OutcomeAfter(g, p, [Line(None, silent, Event(Some(session), Complete(Stopped, value)))]) == Some(Broken(Reported(value), true))
            && OutcomeAfter(g, p, [Line(None, silent, Event(Some(session), Complete(Erroneous, value)))]) == Some(Broken(Reported(value), false))
            && OutcomeAfter(g, p, [Line(None, silent, Event(Some(session), Failure(value)))]) == Some(Broken(Reported(value), false))
            && OutcomeAfter(g, p, [Line(None, silent, Event(Some(other), Complete(Ok, value)))]) == None
  {
    var silent := Rejected(NotRunning);
    OneInput(g, p, Line(None, silent, Event(Some(session), Complete(Ok, value))));
    OneInput(g, p, Line(None, silent, Event(Some(session), Complete(Stopped, value))));
    OneInput(g, p, Line(None, silent, Event(Some(session), Complete(Erroneous, value))));
    OneInput(g, p, Line(None, silent, Event(Some(session), Failure(value))));
    OneInput(g, p, Line(None, silent, Event(Some(other), Complete(Ok, value))));
  }

  /** Or with its process, when that ends or is halted, or when nothing comes in time: all of these are interruptions. */
  lemma SilenceEndsPrompts(g: State, p: nat, session: nat, code: int)
    requires Open(g, p, session)
    ensures OutcomeAfter(g, p, [Exit(code)]) == Some(Broken(Exited(code), true))
    ensures OutcomeAfter(g, p, [Halt]) == Some(Broken(Halted, true))
    ensures OutcomeAfter(g, p, [PromptTimeout(p)]) == Some(Broken(Unconfirmed, true))
  {
    OneInput(g, p, Exit(code));
    OneInput(g, p, Halt);
    OneInput(g, p, PromptTimeout(p));
  }

  /** The reply to the prompt's own request: the acknowledgement leaves it open, a plain result resolves it, an error and
      a timeout break it, neither as an interruption. Without a process it breaks at once. */
  lemma RepliesEndPrompts(g: State, session: nat, value: nat, e: Event)
    requires CallsInv(g.calls) && g.calls.running
    ensures var g1, p, id := Next(g, Submit(session)), |g.prompts|, g.calls.last + 1;
            && OutcomeAfter(g1, p, [Line(Some(id), Result(true, value), e), Continuation(p)]) == None
            && OutcomeAfter(g1, p, [Line(Some(id), Result(false, value), e), Continuation(p)]) == Some(Resolved(value))
            && OutcomeAfter(g1, p, [Line(Some(id), Rejected(Reported(value)), e), Continuation(p)]) == Some(Broken(Reported(value), false))
            && OutcomeAfter(g1, p, [RequestTimeout(id), Continuation(p)]) == Some(Broken(TimedOut, false))
            && OutcomeAfter(Next(g.(calls := g.calls.(running := false)), Submit(session)), p, [Continuation(p)]) == Some(Broken(NotRunning, false))
  {
    var g1, p, id := Next(g, Submit(session)), |g.prompts|, g.calls.last + 1;
    assert id in g1.calls.pending && id !in g1.calls.settled && g1.prompts[p] == Prompt(session, Some(id), true, None);
    ReplyEndsPrompt(g1, p, Line(Some(id), Result(true, value), e));
    ReplyEndsPrompt(g1, p, Line(Some(id), Result(false, value), e));
    ReplyEndsPrompt(g1, p, Line(Some(id), Rejected(Reported(value)), e));
    ReplyEndsPrompt(g1, p, RequestTimeout(id));
    OneInput(Next(g.(calls := g.calls.(running := false)), Submit(session)), p, Continuation(p));
  }

  lemma ReplyEndsPrompt(g: State, p: nat, i: Input)
    ensures OutcomeAfter(g, p, [i, Continuation(p)]) ==
              var g' := Next(Next(g, i), Continuation(p)); if p < |g'.prompts| then g'.prompts[p].outcome else None
  {
    TwoInputs(g, p, i, Continuation(p));
    OneInput(Next(g, i), p, Continuation(p));
  }

  // ----- the gateway object -----

  class HermesGateway {
    var running: bool
    var requestId: nat
    var pending: set<nat>
    var settled: map<nat, Reply>
    var prompts: seq<Prompt>

    ghost function Abs(): State
      reads this
    {
      State(Calls(running, requestId, pending, settled), prompts)
    }

    constructor ()
      ensures Abs() == State(Calls(false, 0, {}, map[]), [])
    {
      running, requestId, pending, settled, prompts := false, 0, {}, map[], [];
    }

    method Start()
      modifies this
      ensures Abs() == Next(old(Abs()), Spawn)
    {
      running := true;
    }

    /** The number of the request, or nothing when it was rejected at once. */
    method Call() returns (id: Option<nat>)
      modifies this
      ensures Abs() == Next(old(Abs()), Request)
      ensures id == if old(running) then Some(old(requestId) + 1) else None
    {
      if !running { return None; }
      requestId := requestId + 1;
      pending := pending + {requestId};
      id := Some(requestId);
    }

    method SubmitPrompt(session: nat)
      modifies this
      ensures Abs() == Next(old(Abs()), Submit(session))
    {
      var id := Call();
      prompts := prompts + [Prompt(session, id, true, None)];
    }

    method Emit(event: Event)
      modifies this`prompts
      ensures prompts == HearAll(old(prompts), event)
    {
      var n := 0;
      while n < |prompts|
        invariant 0 <= n <= |prompts| == |old(prompts)|
        invariant forall k | 0 <= k < n :: prompts[k] == Hear(old(prompts)[k], event)
        invariant forall k | n <= k < |prompts| :: prompts[k] == old(prompts)[k]
      {
        prompts := prompts[n := Hear(prompts[n], event)];
        n := n + 1;
      }
    }

    method OnLine(id: Option<nat>, reply: Reply, event: Event)
      modifies this
      ensures Abs() == Next(old(Abs()), Line(id, reply, event))
    {
      if id.Some? && id.value in pending {
        pending := pending - {id.value};
        settled := settled[id.value := reply];
      } else {
        Emit(event);
      }
    }

    method RejectPending(code: int)
      modifies this`pending, this`settled
      ensures pending == {}
      ensures settled == old(settled) + map id | id in old(pending) :: Rejected(Exited(code))
    {
      while pending != {}
        invariant pending <= old(pending)
        invariant settled == old(settled) + map id | id in old(pending) - pending :: Rejected(Exited(code))
        decreases |pending|
      {
        var id :| id in pending;
        settled := settled[id := Rejected(Exited(code))];
        pending := pending - {id};
      }
    }

    method OnExit(code: int)
      modifies this
      ensures Abs() == Next(old(Abs()), Exit(code))
    {
      RejectPending(code);
      running := false;
      AbandonPrompts(Exited(code));
    }

    method AbandonPrompts(error: Error)
      modifies this`prompts
      ensures prompts == AbandonAll(old(prompts), error)
    {
      var n := 0;
      while n < |prompts|
        invariant 0 <= n <= |prompts| == |old(prompts)|
        invariant forall k | 0 <= k < n :: prompts[k] == AbandonAll(old(prompts), error)[k]
        invariant forall k | n <= k < |prompts| :: prompts[k] == old(prompts)[k]
      {
        if prompts[n].listening { prompts := prompts[n := Close(prompts[n], Broken(error, true))]; }
        n := n + 1;
      }
    }

    /** `stop`: the listeners are told at once; pending requests are rejected when the process has ended. */
    method Stop()
      modifies this
      ensures Abs() == Next(old(Abs()), Halt)
    {
      running := false;
      AbandonPrompts(Halted);
    }

    method OnRequestTimeout(id: nat)
      modifies this
      ensures Abs() == Next(old(Abs()), RequestTimeout(id))
    {
      if id in pending {
        pending := pending - {id};
        settled := settled[id := Rejected(TimedOut)];
      }
    }

    method OnPromptTimeout(p: nat)
      modifies this
      ensures Abs() == Next(old(Abs()), PromptTimeout(p))
    {
      if p < |prompts| && prompts[p].listening {
        prompts := prompts[p := Close(prompts[p], Broken(Unconfirmed, true))];
      }
    }

    method OnContinuation(p: nat)
      modifies this
      ensures Abs() == Next(old(Abs()), Continuation(p))
    {
      if p < |prompts| {
        prompts := prompts[p := Continue(Calls(running, requestId, pending, settled), prompts[p])];
      }
    }
  }
}
