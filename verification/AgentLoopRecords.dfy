/** What the handlers of the agent loop leave behind, call by call and step by step: which calls
    run, which messages they leave, and what a granted call is
    (src/services/agent_loop/tool_worker.py, brain/brain_worker.py, src/api/rest/routers/chat.py,
    src/services/governance/policy_engine.py). */
module AgentLoopRecords {
  import opened Prelude
  import opened Policy
  import opened AgentLoop
  import opened AgentLoopProofs

  // ---------------------------------------------------------------------------
  // Which calls run

  /** The policy lets the call through, its tool exists, and it is not simulated. */
  predicate ShouldRun(session: Session, call: Call, attempt: Attempt) {
    && (session.role == "admin" ||
        (&& !Waits(session, call.name, call.args) && MayUse(session.role, call.name)
         && (ChecksPath(call.name) ==> attempt.pathAllowed)))
    && attempt.known && !call.args.dryRun && !session.shadowMode
  }

  /** The calls of a batch that should run, in order. */
  function RunsOf(session: Session, calls: seq<Call>, attempts: seq<Attempt>, granted: Option<nat>): seq<Run>
    requires |attempts| == |calls|
  {
    if calls == [] then []
    else
      var n := |calls| - 1;
      RunsOf(session, calls[..n], attempts[..n], granted) +
      (if ShouldRun(session, calls[n], attempts[n]) then [Run(calls[n], granted)] else [])
  }

  /** The message of one call. */
  predicate Leaves(session: Session, call: Call, attempt: Attempt, e: Entry) {
    if session.role != "admin" && Waits(session, call.name, call.args) then e == ApprovalRequest(call, Pending)
    else if session.role != "admin" &&
            (!MayUse(session.role, call.name) || (ChecksPath(call.name) && !attempt.pathAllowed))
    then e == GovernanceDenied(Some(call.id))
    else if !attempt.known then e == ToolResult(Some(call.id), "Unknown tool: " + call.name)
    else if call.args.dryRun || session.shadowMode
    then e == ToolResult(Some(call.id), "[SHADOW MODE] Simulated execution of " + call.name)
    else e == ToolResult(Some(call.id), attempt.output)
  }

  lemma CallLeaves(s: State, session: Session, call: Call, attempt: Attempt, granted: Option<nat>)
    ensures Leaves(session, call, attempt, ToolEntry(session, call, attempt))
    ensures AfterCall(s, session, call, attempt, granted).executed ==
            s.executed + (if ShouldRun(session, call, attempt) then [Run(call, granted)] else [])
  {
    VerdictExactly(session, call.name, call.args, attempt.pathAllowed);
    assert s.executed + [] == s.executed;
  }

  lemma {:induction false} CallsRun(s: State, session: Session, calls: seq<Call>, attempts: seq<Attempt>,
    granted: Option<nat>)
    requires |attempts| == |calls|
    ensures AfterCalls(s, session, calls, attempts, granted).executed ==
            s.executed + RunsOf(session, calls, attempts, granted)
  {
    if calls == [] {
      assert s.executed + [] == s.executed;
    } else {
      var n := |calls| - 1;
      CallsRun(s, session, calls[..n], attempts[..n], granted);
      CallLeaves(AfterCalls(s, session, calls[..n], attempts[..n], granted), session, calls[n], attempts[n], granted);
    }
  }

  /** An execution leaves one message for each call, which the policy's plain rules decide, and
      runs exactly the calls that they, the registry and the shadow mode let through; without
      its session it leaves an error and runs nothing. */
  lemma ExecutesExactly(s: State, session: Session, event: Execution, sessionFound: bool, attempts: seq<Attempt>)
    requires |attempts| == |event.calls|
    ensures var t := AfterExecution(s, session, event, sessionFound, attempts);
            && s.messages <= t.messages
            && if !sessionFound then
                 && t.messages == s.messages + [ToolResult(None, "ERROR: Session not found or unauthorized")]
                 && t.executed == s.executed
               else
                 && |t.messages| == |s.messages| + |event.calls|
                 && (forall i :: 0 <= i < |event.calls| ==>
                       Leaves(session, event.calls[i], attempts[i], t.messages[|s.messages| + i]))
                 && t.executed == s.executed + RunsOf(session, event.calls, attempts, event.granted)
  {
    if sessionFound {
      BatchShape(s, session, event.calls, attempts, event.granted);
      CallsRun(s, session, event.calls, attempts, event.granted);
      forall i | 0 <= i < |event.calls|
        ensures Leaves(session, event.calls[i], attempts[i], ToolEntry(session, event.calls[i], attempts[i]))
      {
        CallLeaves(s, session, event.calls[i], attempts[i], event.granted);
      }
    }
  }

  /** The calls that the executions of a run should have run, in order. */
  ghost function Executions(w: World, description: Option<string>, run: seq<Action>): seq<Run>
    requires Valid(w, Dispatched(description), run)
  {
    if run == [] then []
    else
      var p, a := run[..|run| - 1], run[|run| - 1];
      var s := AgentLoopProofs.After(w, Dispatched(description), p);
      Executions(w, description, p) +
      (if a.Execute? && a.sessionFound
       then RunsOf(w.session, s.executionQueue[a.at].calls, a.attempts, s.executionQueue[a.at].granted) else [])
  }

  lemma NothingElseRuns(w: World, s: State, a: Action)
    requires Enabled(s, a) && !a.Execute?
    ensures Step(w, s, a).executed == s.executed
  {
    if a.Think? {
      ThinkShape(w, s, a);
    }
  }

  /** What ran in a run is what its executions should have run, each call judged with its own
      path check, and nothing else. */
  lemma {:induction false} RunsAreExecutions(w: World, description: Option<string>, run: seq<Action>)
    requires Valid(w, Dispatched(description), run)
    ensures AgentLoopProofs.After(w, Dispatched(description), run).executed == Executions(w, description, run)
  {
    if run != [] {
      var p, a := run[..|run| - 1], run[|run| - 1];
      var s := AgentLoopProofs.After(w, Dispatched(description), p);
      RunsAreExecutions(w, description, p);
      if a.Execute? {
        var s0 := s.(executionQueue := Remove(s.executionQueue, a.at));
        ExecutesExactly(s0, w.session, s.executionQueue[a.at], a.sessionFound, a.attempts);
      } else {
        NothingElseRuns(w, s, a);
      }
      assert s.executed + [] == s.executed;
    }
  }

  /** In every run, unless the user is an admin, only tools that the role may use have run, and
      none that still had to wait; no call that asked for a dry run has run, and none at all in
      shadow mode. */
  lemma RunsArePermitted(w: World, description: Option<string>, run: seq<Action>, i: nat)
    requires Valid(w, Dispatched(description), run)
    requires i < |AgentLoopProofs.After(w, Dispatched(description), run).executed|
    ensures var call := AgentLoopProofs.After(w, Dispatched(description), run).executed[i].call;
            && (w.session.role == "admin" ||
                (MayUse(w.session.role, call.name) && !Waits(w.session, call.name, call.args)))
            && !call.args.dryRun && !w.session.shadowMode
  {
    var s := AgentLoopProofs.After(w, Dispatched(description), run);
    RunKeepsInv(w, description, run);
    assert RunSound(w, s, s.executed[i]);
    var call := s.executed[i].call;
    var pathAllowed :| Judge(w.session, call.name, call.args, pathAllowed) == Allow;
    VerdictExactly(w.session, call.name, call.args, pathAllowed);
  }

  // ---------------------------------------------------------------------------
  // What a grant is

  /** The same call with the approval flag set: nothing else of it differs. */
  predicate ApprovedForm(call: Call, asked: Call) {
    && call.id == asked.id && call.name == asked.name && call.args.approved
    && call.args.dryRun == asked.args.dryRun && call.args.payload == asked.args.payload
  }

  /** Deciding a pending request: a denial queues nothing, and anything else queues exactly one
      event with exactly one call, the one that was asked for with its flag set. The request
      shows the decision, and every other message stays. */
  lemma DecisionDispatches(s: State, id: nat, decision: string)
    requires IsPending(s, id)
    ensures var (t, asked) := (AfterDecision(s, id, decision).0, s.messages[id].call);
            && |t.messages| == |s.messages|
            && (forall k :: 0 <= k < |s.messages| && k != id ==> t.messages[k] == s.messages[k])
            && t.messages[id].ApprovalRequest?
            && if decision == "denied" then
                 && t.executionQueue == s.executionQueue
                 && t.messages[id] == ApprovalRequest(asked, Denied)
               else
                 && |t.executionQueue| == |s.executionQueue| + 1 && s.executionQueue <= t.executionQueue
                 && var e := t.executionQueue[|s.executionQueue|];
                    && |e.calls| == 1 && e.granted == Some(id) && ApprovedForm(e.calls[0], asked)
                    && t.messages[id] == ApprovalRequest(e.calls[0], Approved)
  {
  }

  /** Every granted call that really ran is, but for its flag, one that a recorded answer of the
      model asked for. */
  lemma GrantedRunsWereAsked(w: World, description: Option<string>, run: seq<Action>, i: nat)
    requires Valid(w, Dispatched(description), run)
    requires i < |AgentLoopProofs.After(w, Dispatched(description), run).executed|
    requires AgentLoopProofs.After(w, Dispatched(description), run).executed[i].granted.Some?
    ensures var s := AgentLoopProofs.After(w, Dispatched(description), run);
            var call := s.executed[i].call;
            && call.args.approved
            && exists k, j :: 0 <= k < |s.messages| && s.messages[k].Assistant? && 0 <= j < |s.messages[k].calls| &&
                 var raw := s.messages[k].calls[j];
                 raw.args.Some? && ApprovedForm(call, Call(raw.id, raw.name, raw.args.value))
  {
    var s := AgentLoopProofs.After(w, Dispatched(description), run);
    var call := s.executed[i].call;
    RunsWereAsked(w, description, run, i);
    var c :| Asked(s.messages, c) && call == Grant(c);
    var k :| 0 <= k < |s.messages| && s.messages[k].Assistant? && AllParse(s.messages[k].calls)
             && RawOf(c) in s.messages[k].calls;
    var j :| 0 <= j < |s.messages[k].calls| && s.messages[k].calls[j] == RawOf(c);
    var raw := s.messages[k].calls[j];
    assert ApprovedForm(call, Call(raw.id, raw.name, raw.args.value));
  }

  // ---------------------------------------------------------------------------
  // What a reasoning step records

  /** The messages of an outcome: an answer is recorded with its calls, and a second message
      tells of arguments that do not parse. */
  function Told(outcome: Outcome): seq<Entry> {
    match outcome
    case QuotaExceeded(text) => [System(text)]
    case NoApiKey => [Assistant("No API key configured.", [])]
    case BreakerOpen => [Assistant("LLM service temporarily unavailable.", [])]
    case CallFailed(text) => [Assistant(text, [])]
    case Answered(content, calls) =>
      [Assistant(content, calls)] +
      (if exists i :: 0 <= i < |calls| && calls[i].args.None?
       then [Assistant("Tool call arguments were invalid JSON", [])] else [])
  }

  /** The messages of a reasoning step in its n-th iteration: the wrap-up note in the 40th, the
      description, and the outcome, or one message when session or iterations are used up. */
  function Recorded(w: World, thought: Thought, sessionFound: bool, n: nat, outcome: Outcome): seq<Entry> {
    if !sessionFound then [System("Session not found.")]
    else if w.taskFound && n > 50 then [Assistant("Max iterations reached.", [])]
    else
      (if w.taskFound && n == 40 then [System("[SYSTEM] Wrap up task.")] else []) +
      (if thought.description.Some? then [User(thought.description.value)] else []) +
      Told(outcome)
  }

  lemma OutcomeIsTold(s: State, outcome: Outcome)
    ensures AfterOutcome(s, outcome).messages == s.messages + Told(outcome)
    ensures AfterOutcome(s, outcome).llmCalls ==
            s.llmCalls + (if outcome.CallFailed? || outcome.Answered? then 1 else 0)
  {
    if outcome.Answered? {
      AnswerIsTold(s.(llmCalls := s.llmCalls + 1), outcome.content, outcome.calls);
    }
  }

  lemma AnswerIsTold(s: State, content: string, calls: seq<RawCall>)
    ensures AfterAnswer(s, content, calls).messages == s.messages + Told(Answered(content, calls))
    ensures AfterAnswer(s, content, calls).llmCalls == s.llmCalls
  {
    assert AllParse(calls) <==> !exists i :: 0 <= i < |calls| && calls[i].args.None?;
    var answer := Assistant(content, calls);
    assert s.messages + [answer] + [Assistant("Tool call arguments were invalid JSON", [])] ==
           s.messages + ([answer] + [Assistant("Tool call arguments were invalid JSON", [])]);
    assert [answer] + [] == [answer];
  }

  /** Every reasoning step records exactly these messages, and calls the model exactly when it
      gets that far and the outcome is of a call. */
  lemma ThinkRecordsExactly(w: World, s: State, a: Action)
    requires a.Think? && Enabled(s, a)
    ensures var t, n := Step(w, s, a), s.iteration + 1;
            && t.messages == s.messages + Recorded(w, s.taskQueue[a.at], a.sessionFound, n, a.outcome)
            && (var called := a.outcome.CallFailed? || a.outcome.Answered?;
                t.llmCalls == s.llmCalls + (if a.sessionFound && !(w.taskFound && n > 50) && called then 1 else 0))
  {
    if a.sessionFound && !(w.taskFound && s.iteration + 1 > 50) {
      var s0, thought := s.(taskQueue := Remove(s.taskQueue, a.at)), s.taskQueue[a.at];
      var s1 := if w.taskFound then s0.(iteration := s0.iteration + 1) else s0;
      var s2 := if w.taskFound && s1.iteration == 40 then Note(s1, System("[SYSTEM] Wrap up task.")) else s1;
      var s3 := if thought.description.Some? then Note(s2, User(thought.description.value)) else s2;
      OutcomeIsTold(s3, a.outcome);
      Chained(s.messages, if w.taskFound && s1.iteration == 40 then [System("[SYSTEM] Wrap up task.")] else [],
              if thought.description.Some? then [User(thought.description.value)] else [], Told(a.outcome),
              s3.messages);
      assert Step(w, s, a) == AfterOutcome(s3, a.outcome);
    }
  }

  lemma Chained(m: seq<Entry>, note: seq<Entry>, asked: seq<Entry>, told: seq<Entry>, before: seq<Entry>)
    requires before == m + note + asked
    ensures before + told == m + (note + asked + told)
  {
  }
}
