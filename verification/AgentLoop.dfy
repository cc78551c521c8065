/** The ReAct loop of one task: the brain worker, the tool worker and the approval endpoint
    exchanging events over the task queue and the execution queue
    (src/services/agent_loop/brain/brain_worker.py, brain/llm_caller.py,
    brain/response_parser.py, src/services/agent_loop/tool_worker.py,
    src/api/rest/routers/chat.py).

    A handler step is atomic, an approval request included; ApprovalOverlap.dfy cuts that one at
    its awaits. What the handlers learn from outside (is the session there, what did the model
    answer, how did a tool end) is part of the step. */
module AgentLoop {
  import opened Prelude
  import opened Policy

  const MAX_ITERATIONS := 50
  const WRAP_UP_ITERATION := 40

  datatype Call = Call(id: string, name: string, args: Args)

  /** A tool call as the model streamed it; `args` is `None` when the text is not JSON. */
  datatype RawCall = RawCall(id: string, name: string, args: Option<Args>)

  datatype Approval = Pending | Approved | Denied

  /** The task's messages. */
  datatype Entry =
    | User(text: string)
    | System(text: string)
    | Assistant(text: string, calls: seq<RawCall>)
    | ToolResult(callId: Option<string>, output: string)
    | GovernanceDenied(callId: Option<string>)
    | ApprovalRequest(call: Call, approval: Approval)

  /** An event on the task queue; `None` stands for a blank description. */
  datatype Thought = Thought(description: Option<string>)

  /** An event on the execution queue: a batch, or the single call of a granted request. */
  datatype Execution = Execution(calls: seq<Call>, granted: Option<nat>)

  datatype Run = Run(call: Call, granted: Option<nat>)

  datatype State = State(
    iteration: nat,
    messages: seq<Entry>,
    taskQueue: seq<Thought>,
    executionQueue: seq<Execution>,
    llmCalls: nat,
    executed: seq<Run>,
    grants: seq<nat>)

  /** The state `send_chat_message` leaves: one thought, nothing else. */
  function Dispatched(description: Option<string>): State {
    State(0, [], [Thought(description)], [], 0, [], [])
  }

  // ---------------------------------------------------------------------------
  // The brain worker

  /** How one reasoning step ends. */
  datatype Outcome =
    | QuotaExceeded(text: string)
    | NoApiKey
    | BreakerOpen
    | CallFailed(text: string)
    | Answered(content: string, calls: seq<RawCall>)

  function Note(s: State, e: Entry): State {
    s.(messages := s.messages + [e])
  }

  predicate AllParse(calls: seq<RawCall>) {
    forall i :: 0 <= i < |calls| ==> calls[i].args.Some?
  }

  function Payload(calls: seq<RawCall>): seq<Call>
    requires AllParse(calls)
  {
    if calls == [] then []
    else
      var last := calls[|calls| - 1];
      Payload(calls[..|calls| - 1]) + [Call(last.id, last.name, last.args.value)]
  }

  /** `process_response`. */
  function AfterAnswer(s: State, content: string, calls: seq<RawCall>): State {
    var s1 := Note(s, Assistant(content, calls));
    if calls == [] then s1
    else if AllParse(calls) then s1.(executionQueue := s.executionQueue + [Execution(Payload(calls), None)])
    else Note(s1, Assistant("Tool call arguments were invalid JSON", []))
  }

  function AfterOutcome(s: State, outcome: Outcome): State {
    match outcome
    case QuotaExceeded(text) => Note(s, System(text))
    case NoApiKey => Note(s, Assistant("No API key configured.", []))
    case BreakerOpen => Note(s, Assistant("LLM service temporarily unavailable.", []))
    case CallFailed(text) => Note(s.(llmCalls := s.llmCalls + 1), Assistant(text, []))
    case Answered(content, calls) => AfterAnswer(s.(llmCalls := s.llmCalls + 1), content, calls)
  }

  /** `process_task_event` on an event already taken off the queue. */
  function AfterThought(s: State, thought: Thought, sessionFound: bool, taskFound: bool, outcome: Outcome): State {
    if !sessionFound then Note(s, System("Session not found."))
    else
      var s1 := if taskFound then s.(iteration := s.iteration + 1) else s;
      if taskFound && s1.iteration > MAX_ITERATIONS then Note(s1, Assistant("Max iterations reached.", []))
      else
        var s2 := if taskFound && s1.iteration == WRAP_UP_ITERATION then Note(s1, System("[SYSTEM] Wrap up task."))
          else s1;
        var s3 := if thought.description.Some? then Note(s2, User(thought.description.value)) else s2;
        AfterOutcome(s3, outcome)
  }

  // ---------------------------------------------------------------------------
  // The tool worker

  /** What the outside contributes to one call: the path check, whether the tool exists, and
      the text its execution produced. */
  datatype Attempt = Attempt(pathAllowed: bool, known: bool, output: string)

  function ResultText(session: Session, call: Call, attempt: Attempt): string {
    if !attempt.known then "Unknown tool: " + call.name
    else if !TakesEffect(session, call.args) then "[SHADOW MODE] Simulated execution of " + call.name
    else attempt.output
  }

  function ToolEntry(session: Session, call: Call, attempt: Attempt): Entry {
    match Judge(session, call.name, call.args, attempt.pathAllowed)
    case NeedsApproval => ApprovalRequest(call, Pending)
    case Deny => GovernanceDenied(Some(call.id))
    case Allow => ToolResult(Some(call.id), ResultText(session, call, attempt))
  }

  /** Whether the call really ran, rather than being refused, unknown or simulated. */
  predicate Runs(session: Session, call: Call, attempt: Attempt) {
    && Judge(session, call.name, call.args, attempt.pathAllowed) == Allow
    && attempt.known && TakesEffect(session, call.args)
  }

  function AfterCall(s: State, session: Session, call: Call, attempt: Attempt, granted: Option<nat>): State {
    var s1 := Note(s, ToolEntry(session, call, attempt));
    if Runs(session, call, attempt) then s1.(executed := s.executed + [Run(call, granted)]) else s1
  }

  function AfterCalls(s: State, session: Session, calls: seq<Call>, attempts: seq<Attempt>, granted: Option<nat>): State
    requires |attempts| == |calls|
  {
    if calls == [] then s
    else
      var n := |calls| - 1;
      AfterCall(AfterCalls(s, session, calls[..n], attempts[..n], granted), session, calls[n], attempts[n], granted)
  }

  predicate AnyPauses(session: Session, calls: seq<Call>) {
    exists i :: 0 <= i < |calls| && Pauses(session, calls[i].name, calls[i].args)
  }

  function Retrigger(s: State): State {
    s.(taskQueue := s.taskQueue + [Thought(None)])
  }

  /** `process_tool_event` on an event already taken off the queue. */
  function AfterExecution(s: State, session: Session, event: Execution, sessionFound: bool,
    attempts: seq<Attempt>): State
    requires |attempts| == |event.calls|
  {
    if !sessionFound then Retrigger(Note(s, ToolResult(None, "ERROR: Session not found or unauthorized")))
    else
      var s1 := AfterCalls(s, session, event.calls, attempts, event.granted);
      if AnyPauses(session, event.calls) then s1 else Retrigger(s1)
  }

  // ---------------------------------------------------------------------------
  // The approval endpoint

  predicate IsPending(s: State, id: nat) {
    id < |s.messages| && s.messages[id].ApprovalRequest? && s.messages[id].approval == Pending
  }

  datatype Response = NotFound | DeniedReply | DispatchedReply

  function Grant(call: Call): Call {
    call.(args := call.args.(approved := true))
  }

  /** The second half of `approve_tool_call`: the mark and the dispatch, on the call that the
      first half saw. */
  function AfterMark(s: State, id: nat, call: Call, decision: string): State
    requires id < |s.messages|
  {
    if decision == "denied" then s.(messages := s.messages[id := ApprovalRequest(call, Denied)])
    else
      s.(messages := s.messages[id := ApprovalRequest(Grant(call), Approved)],
         executionQueue := s.executionQueue + [Execution([Grant(call)], Some(id))],
         grants := s.grants + [id])
  }

  function AfterDecision(s: State, id: nat, decision: string): (State, Response) {
    if !IsPending(s, id) then (s, NotFound)
    else
      (AfterMark(s, id, s.messages[id].call, decision), if decision == "denied" then DeniedReply else DispatchedReply)
  }

  // ---------------------------------------------------------------------------
  // The handlers as they are written

  class TaskRuntime {
    const session: Session
    var iteration: nat
    var messages: seq<Entry>
    var taskQueue: seq<Thought>
    var executionQueue: seq<Execution>
    var llmCalls: nat
    ghost var executed: seq<Run>
    ghost var grants: seq<nat>

    ghost function Value(): State
      reads this
    {
      State(iteration, messages, taskQueue, executionQueue, llmCalls, executed, grants)
    }

    constructor (session: Session, description: Option<string>)
      ensures this.session == session && Value() == Dispatched(description)
    {
      this.session := session;
      iteration, llmCalls := 0, 0;
      messages, taskQueue, executionQueue := [], [Thought(description)], [];
      executed, grants := [], [];
    }

    method ProcessTaskEvent(thought: Thought, sessionFound: bool, taskFound: bool, outcome: Outcome)
      modifies this
      ensures Value() == AfterThought(old(Value()), thought, sessionFound, taskFound, outcome)
    {
      if !sessionFound {
        messages := messages + [System("Session not found.")];
        return;
      }
      if taskFound {
        iteration := iteration + 1;
        if iteration > MAX_ITERATIONS {
          messages := messages + [Assistant("Max iterations reached.", [])];
          return;
        }
        if iteration == WRAP_UP_ITERATION {
          messages := messages + [System("[SYSTEM] Wrap up task.")];
        }
      }
      if thought.description.Some? {
        messages := messages + [User(thought.description.value)];
      }
      if outcome.QuotaExceeded? {
        messages := messages + [System(outcome.text)];
        return;
      }
      CallModel(outcome);
    }

    /** `call_llm_and_stream`. */
    method CallModel(outcome: Outcome)
      requires !outcome.QuotaExceeded?
      modifies this
      ensures Value() == AfterOutcome(old(Value()), outcome)
    {
      match outcome {
        case NoApiKey => messages := messages + [Assistant("No API key configured.", [])];
        case BreakerOpen => messages := messages + [Assistant("LLM service temporarily unavailable.", [])];
        case CallFailed(text) =>
          llmCalls := llmCalls + 1;
          messages := messages + [Assistant(text, [])];
        case Answered(content, calls) =>
          llmCalls := llmCalls + 1;
          ProcessResponse(content, calls);
      }
    }

    method ProcessResponse(content: string, calls: seq<RawCall>)
      modifies this
      ensures Value() == AfterAnswer(old(Value()), content, calls)
    {
      messages := messages + [Assistant(content, calls)];
      if calls == [] {
        return;
      }
      var payload: seq<Call> := [];
      for i := 0 to |calls|
        invariant Value() == Note(old(Value()), Assistant(content, calls))
        invariant AllParse(calls[..i]) && payload == Payload(calls[..i])
      {
        if calls[i].args.None? {
          messages := messages + [Assistant("Tool call arguments were invalid JSON", [])];
          return;
        }
        payload := payload + [Call(calls[i].id, calls[i].name, calls[i].args.value)];
        assert calls[..i + 1][..i] == calls[..i];
      }
      assert calls[..|calls|] == calls;
      executionQueue := executionQueue + [Execution(payload, None)];
    }

    method ProcessToolEvent(event: Execution, sessionFound: bool, attempts: seq<Attempt>)
      requires |attempts| == |event.calls|
      modifies this
      ensures Value() == AfterExecution(old(Value()), session, event, sessionFound, attempts)
    {
      if !sessionFound {
        messages := messages + [ToolResult(None, "ERROR: Session not found or unauthorized")];
        RetriggerBrain();
        return;
      }
      var calls, anyApprovalRequired := event.calls, false;
      for i := 0 to |calls|
        invariant Value() == AfterCalls(old(Value()), session, calls[..i], attempts[..i], event.granted)
        invariant anyApprovalRequired <==> AnyPauses(session, calls[..i])
      {
        assert calls[..i + 1][..i] == calls[..i] && attempts[..i + 1][..i] == attempts[..i];
        var paused := ProcessCall(calls[i], attempts[i], event.granted);
        anyApprovalRequired := anyApprovalRequired || paused;
        AnyPausesSnoc(session, calls[..i], calls[i]);
        assert calls[..i + 1] == calls[..i] + [calls[i]];
      }
      assert calls[..|calls|] == calls && attempts[..|attempts|] == attempts;
      if !anyApprovalRequired {
        RetriggerBrain();
      }
    }

    /** The body of that loop: whether the call now waits for approval. */
    method ProcessCall(call: Call, attempt: Attempt, granted: Option<nat>) returns (paused: bool)
      modifies this
      ensures Value() == AfterCall(old(Value()), session, call, attempt, granted)
      ensures paused <==> Pauses(session, call.name, call.args)
    {
      PausesExactly(session, call.name, call.args, attempt.pathAllowed);
      paused := false;
      match Judge(session, call.name, call.args, attempt.pathAllowed) {
        case NeedsApproval =>
          messages := messages + [ApprovalRequest(call, Pending)];
          paused := true;
        case Deny =>
          messages := messages + [GovernanceDenied(Some(call.id))];
        case Allow =>
          var output;
          if !attempt.known {
            output := "Unknown tool: " + call.name;
          } else if call.args.dryRun || session.shadowMode {
            output := "[SHADOW MODE] Simulated execution of " + call.name;
          } else {
            output := attempt.output;
            executed := executed + [Run(call, granted)];
          }
          messages := messages + [ToolResult(Some(call.id), output)];
      }
    }

    method RetriggerBrain()
      modifies this
      ensures Value() == Retrigger(old(Value()))
    {
      taskQueue := taskQueue + [Thought(None)];
    }

    /** A request that no other request to the endpoint overlaps. */
    method ApproveToolCall(id: nat, decision: string) returns (response: Response)
      modifies this
      ensures (Value(), response) == AfterDecision(old(Value()), id, decision)
    {
      var call := FindPending(id);
      if call.None? {
        return NotFound;
      }
      response := MarkRequest(id, call.value, decision);
    }

    /** Up to the await of the query. */
    method FindPending(id: nat) returns (call: Option<Call>)
      ensures call == if IsPending(Value(), id) then Some(messages[id].call) else None
    {
      if id >= |messages| || !messages[id].ApprovalRequest? || messages[id].approval != Pending {
        return None;
      }
      return Some(messages[id].call);
    }

    /** From there on: nothing is looked at again. */
    method MarkRequest(id: nat, call: Call, decision: string) returns (response: Response)
      requires id < |messages|
      modifies this
      ensures Value() == AfterMark(old(Value()), id, call, decision)
      ensures response == if decision == "denied" then DeniedReply else DispatchedReply
    {
      if decision == "denied" {
        messages := messages[id := ApprovalRequest(call, Denied)];
        return DeniedReply;
      }
      var granted := call.(args := call.args.(approved := true));
      messages := messages[id := ApprovalRequest(granted, Approved)];
      executionQueue := executionQueue + [Execution([granted], Some(id))];
      grants := grants + [id];
      return DispatchedReply;
    }
  }

  lemma AnyPausesSnoc(session: Session, calls: seq<Call>, call: Call)
    ensures AnyPauses(session, calls + [call]) <==> AnyPauses(session, calls) || Pauses(session, call.name, call.args)
  {
    if i :| 0 <= i < |calls| && Pauses(session, calls[i].name, calls[i].args) {
      assert (calls + [call])[i] == calls[i];
    }
    assert (calls + [call])[|calls|] == call;
  }
}
