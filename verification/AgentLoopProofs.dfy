/** What every run of the agent loop keeps, and why every run ends. */
module AgentLoopProofs {
  import opened Prelude
  import opened Policy
  import opened AgentLoop

  /** What stays fixed during a task: its session, and whether its row is found. */
  datatype World = World(session: Session, taskFound: bool)

  /** One handler step, on the event at the given position of its queue. */
  datatype Action =
    | Think(at: nat, sessionFound: bool, outcome: Outcome)
    | Execute(at: nat, sessionFound: bool, attempts: seq<Attempt>)
    | Decide(id: nat, decision: string)

  function Remove<T>(s: seq<T>, i: nat): seq<T>
    requires i < |s|
  {
    s[..i] + s[i + 1..]
  }

  predicate Enabled(s: State, a: Action) {
    match a
    case Think(i, _, _) => i < |s.taskQueue|
    case Execute(i, _, attempts) => i < |s.executionQueue| && |attempts| == |s.executionQueue[i].calls|
    case Decide(id, _) => IsPending(s, id)
  }

  function Step(w: World, s: State, a: Action): State
    requires Enabled(s, a)
  {
    match a
    case Think(i, sessionFound, outcome) =>
      AfterThought(s.(taskQueue := Remove(s.taskQueue, i)), s.taskQueue[i], sessionFound, w.taskFound, outcome)
    case Execute(i, sessionFound, attempts) =>
      AfterExecution(s.(executionQueue := Remove(s.executionQueue, i)), w.session, s.executionQueue[i], sessionFound,
        attempts)
    case Decide(id, decision) => AfterDecision(s, id, decision).0
  }

  /** Every action is enabled when its turn comes. */
  ghost predicate Valid(w: World, s: State, run: seq<Action>)
    decreases |run|, 0
  {
    run == [] ||
    var n := |run| - 1;
    Valid(w, s, run[..n]) && Enabled(After(w, s, run[..n]), run[n])
  }

  ghost function After(w: World, s: State, run: seq<Action>): State
    requires Valid(w, s, run)
    decreases |run|, 1
  {
    if run == [] then s
    else
      var n := |run| - 1;
      Step(w, After(w, s, run[..n]), run[n])
  }

  // ---------------------------------------------------------------------------
  // Single token, call cap, and approvals

  /** The call passes the policy, for some outcome of its path check, and is not simulated. */
  ghost predicate MayRun(session: Session, call: Call) {
    && TakesEffect(session, call.args)
    && exists pathAllowed :: Judge(session, call.name, call.args, pathAllowed) == Allow
  }

  function Entries(session: Session, calls: seq<Call>, attempts: seq<Attempt>): (entries: seq<Entry>)
    requires |attempts| == |calls|
    ensures |entries| == |calls|
    ensures forall i :: 0 <= i < |calls| ==> entries[i] == ToolEntry(session, calls[i], attempts[i])
  {
    seq(|calls|, i requires 0 <= i < |calls| => ToolEntry(session, calls[i], attempts[i]))
  }

  lemma {:induction false} BatchMessages(s: State, session: Session, calls: seq<Call>, attempts: seq<Attempt>,
    granted: Option<nat>)
    requires |attempts| == |calls|
    ensures var t := AfterCalls(s, session, calls, attempts, granted);
            t == s.(messages := s.messages + Entries(session, calls, attempts), executed := t.executed)
  {
    if calls == [] {
      assert s.messages + [] == s.messages;
    } else {
      var n := |calls| - 1;
      BatchMessages(s, session, calls[..n], attempts[..n], granted);
      CallShape(AfterCalls(s, session, calls[..n], attempts[..n], granted), session, calls[n], attempts[n], granted);
      assert Entries(session, calls, attempts) ==
             Entries(session, calls[..n], attempts[..n]) + [ToolEntry(session, calls[n], attempts[n])];
    }
  }

  /** What ran of a batch: its own calls, under its own grant, and only what may run. */
  ghost predicate RanOf(session: Session, r: Run, calls: seq<Call>, granted: Option<nat>) {
    r.granted == granted && r.call in calls && MayRun(session, r.call)
  }

  lemma {:induction false} BatchExecuted(s: State, session: Session, calls: seq<Call>, attempts: seq<Attempt>,
    granted: Option<nat>)
    requires |attempts| == |calls|
    ensures var t := AfterCalls(s, session, calls, attempts, granted);
            && |s.executed| <= |t.executed| && t.executed[..|s.executed|] == s.executed
            && (forall i :: |s.executed| <= i < |t.executed| ==> RanOf(session, t.executed[i], calls, granted))
  {
    if calls != [] {
      var n := |calls| - 1;
      BatchExecuted(s, session, calls[..n], attempts[..n], granted);
      CallShape(AfterCalls(s, session, calls[..n], attempts[..n], granted), session, calls[n], attempts[n], granted);
    }
  }

  lemma BatchShape(s: State, session: Session, calls: seq<Call>, attempts: seq<Attempt>, granted: Option<nat>)
    requires |attempts| == |calls|
    ensures var t := AfterCalls(s, session, calls, attempts, granted);
            && t == s.(messages := t.messages, executed := t.executed)
            && |t.messages| == |s.messages| + |calls| && t.messages[..|s.messages|] == s.messages
            && (forall i :: 0 <= i < |calls| ==>
                  t.messages[|s.messages| + i] == ToolEntry(session, calls[i], attempts[i]))
            && |s.executed| <= |t.executed| && t.executed[..|s.executed|] == s.executed
            && (forall i :: |s.executed| <= i < |t.executed| ==> RanOf(session, t.executed[i], calls, granted))
  {
    BatchMessages(s, session, calls, attempts, granted);
    BatchExecuted(s, session, calls, attempts, granted);
  }

  lemma CallShape(s: State, session: Session, call: Call, attempt: Attempt, granted: Option<nat>)
    ensures var t := AfterCall(s, session, call, attempt, granted);
            && t == s.(messages := s.messages + [ToolEntry(session, call, attempt)], executed := t.executed)
            && (t.executed == s.executed || (t.executed == s.executed + [Run(call, granted)] && MayRun(session, call)))
  {
  }

  /** The message a call leaves: a result, a refusal, or a request that waits for a human. */
  predicate Answers(e: Entry, call: Call) {
    match e
    case ToolResult(id, _) => id == Some(call.id)
    case GovernanceDenied(id) => id == Some(call.id)
    case ApprovalRequest(requested, approval) => requested == call && approval == Pending
    case _ => false
  }

  /** One batch adds exactly one tool message per call, in order, each naming its call. */
  lemma OneMessagePerCall(s: State, session: Session, event: Execution, attempts: seq<Attempt>)
    requires |attempts| == |event.calls|
    ensures var t := AfterExecution(s, session, event, true, attempts);
            && |t.messages| == |s.messages| + |event.calls| && s.messages <= t.messages
            && forall i :: 0 <= i < |event.calls| ==> Answers(t.messages[|s.messages| + i], event.calls[i])
  {
    BatchShape(s, session, event.calls, attempts, event.granted);
    var t := AfterExecution(s, session, event, true, attempts);
    forall i | 0 <= i < |event.calls|
      ensures Answers(t.messages[|s.messages| + i], event.calls[i])
    {
      assert t.messages[|s.messages| + i] == ToolEntry(session, event.calls[i], attempts[i]);
    }
  }

  /** What holds in every reachable state. */
  ghost predicate Inv(w: World, s: State) {
    && |s.taskQueue| + |s.executionQueue| <= 1 + |s.grants|
    && (w.taskFound ==> s.llmCalls <= s.iteration && s.llmCalls <= MAX_ITERATIONS)
    && GrantsSound(s) && GrantedSound(s)
    && (forall i :: 0 <= i < |s.executed| ==> RunSound(w, s, s.executed[i]))
  }

  /** Each granted request was granted once, and these are exactly the approved ones. */
  ghost predicate GrantsSound(s: State) {
    && (forall i, j :: 0 <= i < j < |s.grants| ==> s.grants[i] != s.grants[j])
    && (forall id: nat :: id in s.grants <==>
          id < |s.messages| && s.messages[id].ApprovalRequest? && s.messages[id].approval == Approved)
  }

  /** A granted event carries the one call that was approved. */
  ghost predicate GrantedSound(s: State) {
    forall i :: 0 <= i < |s.executionQueue| && s.executionQueue[i].granted.Some? ==>
      GrantMatches(s, s.executionQueue[i].calls, s.executionQueue[i].granted.value)
  }

  ghost predicate GrantMatches(s: State, calls: seq<Call>, id: nat) {
    id in s.grants && id < |s.messages| && s.messages[id].ApprovalRequest? && calls == [s.messages[id].call]
  }

  /** Only calls that pass the policy run, and a granted run is the approved call. */
  ghost predicate RunSound(w: World, s: State, r: Run) {
    && MayRun(w.session, r.call)
    && (r.granted.Some? ==> GrantMatches(s, [r.call], r.granted.value))
  }

  /** Messages only grow, and an approved request never changes. */
  ghost predicate Extends(s: State, t: State) {
    && |s.messages| <= |t.messages| && s.grants <= t.grants
    && (forall id :: 0 <= id < |s.messages| ==>
          t.messages[id] == s.messages[id] ||
          (IsPending(s, id) && t.messages[id].ApprovalRequest? && t.messages[id].approval != Pending))
  }

  lemma ExtendsKeepsMatches(s: State, t: State, calls: seq<Call>, id: nat)
    requires GrantsSound(s) && Extends(s, t) && GrantMatches(s, calls, id)
    ensures GrantMatches(t, calls, id)
  {
    assert t.messages[id] == s.messages[id];
  }

  /** A step that only appends messages which are not approved keeps the grants. */
  lemma AppendKeepsGrants(s: State, t: State)
    requires GrantsSound(s) && t.grants == s.grants && s.messages <= t.messages
    requires forall i :: |s.messages| <= i < |t.messages| ==>
             !(t.messages[i].ApprovalRequest? && t.messages[i].approval == Approved)
    ensures GrantsSound(t) && Extends(s, t)
  {
  }

  lemma CarryOver(w: World, s: State, t: State)
    requires GrantsSound(s) && Extends(s, t)
    requires forall i :: 0 <= i < |s.executed| ==> RunSound(w, s, s.executed[i])
    ensures forall i :: 0 <= i < |s.executed| ==> RunSound(w, t, s.executed[i])
    ensures forall calls, id :: GrantMatches(s, calls, id) ==> GrantMatches(t, calls, id)
  {
    forall calls, id | GrantMatches(s, calls, id)
      ensures GrantMatches(t, calls, id)
    {
      ExtendsKeepsMatches(s, t, calls, id);
    }
  }

  /** A reasoning step adds messages, none of them a request, and at most one batch. */
  ghost predicate Reasoned(s: State, t: State) {
    && s.messages <= t.messages
    && (forall i :: |s.messages| <= i < |t.messages| ==> !t.messages[i].ApprovalRequest?)
    && t == s.(messages := t.messages, executionQueue := t.executionQueue,
               llmCalls := t.llmCalls, iteration := t.iteration)
    && (t.executionQueue == s.executionQueue ||
        exists calls :: t.executionQueue == s.executionQueue + [Execution(calls, None)])
  }

  lemma OutcomeShape(s: State, outcome: Outcome)
    ensures Reasoned(s, AfterOutcome(s, outcome)) && AfterOutcome(s, outcome).iteration == s.iteration
    ensures s.llmCalls <= AfterOutcome(s, outcome).llmCalls <= s.llmCalls + 1
  {
    if outcome.Answered? && outcome.calls != [] && AllParse(outcome.calls) {
      assert AfterOutcome(s, outcome).executionQueue == s.executionQueue + [Execution(Payload(outcome.calls), None)];
    }
  }

  lemma ThinkShape(w: World, s: State, a: Action)
    requires a.Think? && Enabled(s, a)
    ensures var t := Step(w, s, a);
            && Reasoned(s.(taskQueue := Remove(s.taskQueue, a.at)), t)
            && t.iteration == s.iteration + (if a.sessionFound && w.taskFound then 1 else 0)
            && s.llmCalls <= t.llmCalls <= s.llmCalls + 1
            && (w.taskFound && (!a.sessionFound || t.iteration > MAX_ITERATIONS) ==>
                  t.llmCalls == s.llmCalls && t.executionQueue == s.executionQueue)
  {
    var s0 := s.(taskQueue := Remove(s.taskQueue, a.at));
    var thought := s.taskQueue[a.at];
    if a.sessionFound {
      var s1 := if w.taskFound then s0.(iteration := s0.iteration + 1) else s0;
      if !(w.taskFound && s1.iteration > MAX_ITERATIONS) {
        var s2 := if w.taskFound && s1.iteration == WRAP_UP_ITERATION then Note(s1, System("[SYSTEM] Wrap up task."))
          else s1;
        var s3 := if thought.description.Some? then Note(s2, User(thought.description.value)) else s2;
        assert Reasoned(s0, s3);
        OutcomeShape(s3, a.outcome);
      }
    }
  }

  lemma ThinkKeepsInv(w: World, s: State, a: Action)
    requires Inv(w, s) && a.Think? && Enabled(s, a)
    ensures Inv(w, Step(w, s, a))
  {
    var t := Step(w, s, a);
    ThinkShape(w, s, a);
    AppendKeepsGrants(s, t);
    CarryOver(w, s, t);
  }

  lemma ExecuteShape(w: World, s: State, a: Action)
    requires a.Execute? && Enabled(s, a)
    ensures var t, event := Step(w, s, a), s.executionQueue[a.at];
            && t.executionQueue == Remove(s.executionQueue, a.at)
            && t.taskQueue ==
                 s.taskQueue + (if !a.sessionFound || !AnyPauses(w.session, event.calls) then [Thought(None)] else [])
            && s.messages <= t.messages
            && (forall i :: |s.messages| <= i < |t.messages| && t.messages[i].ApprovalRequest? ==>
                  t.messages[i].approval == Pending)
            && t.grants == s.grants && t.iteration == s.iteration && t.llmCalls == s.llmCalls
            && s.executed <= t.executed
            && (forall i :: |s.executed| <= i < |t.executed| ==>
                  && t.executed[i].granted == event.granted && t.executed[i].call in event.calls
                  && MayRun(w.session, t.executed[i].call))
  {
    var event := s.executionQueue[a.at];
    var s0, t := s.(executionQueue := Remove(s.executionQueue, a.at)), Step(w, s, a);
    BatchShape(s0, w.session, event.calls, a.attempts, event.granted);
    if a.sessionFound {
      forall i | |s.messages| <= i < |t.messages|
        ensures t.messages[i].ApprovalRequest? ==> t.messages[i].approval == Pending
      {
        assert t.messages[|s.messages| + (i - |s.messages|)] ==
               ToolEntry(w.session, event.calls[i - |s.messages|], a.attempts[i - |s.messages|]);
      }
    }
  }

  lemma ExecuteKeepsInv(w: World, s: State, a: Action)
    requires Inv(w, s) && a.Execute? && Enabled(s, a)
    ensures Inv(w, Step(w, s, a))
  {
    var t := Step(w, s, a);
    ExecuteShape(w, s, a);
    AppendKeepsGrants(s, t);
    CarryOver(w, s, t);
    forall i | 0 <= i < |t.executed|
      ensures RunSound(w, t, t.executed[i])
    {
      if i < |s.executed| {
        assert t.executed[i] == s.executed[i];
      }
    }
  }

  lemma DecideKeepsInv(w: World, s: State, a: Action)
    requires Inv(w, s) && a.Decide? && Enabled(s, a)
    ensures Inv(w, Step(w, s, a))
  {
    var t := Step(w, s, a);
    assert a.id !in s.grants;
    assert Extends(s, t);
    CarryOver(w, s, t);
  }

  lemma StepKeepsInv(w: World, s: State, a: Action)
    requires Inv(w, s) && Enabled(s, a)
    ensures Inv(w, Step(w, s, a))
  {
    match a
    case Think(_, _, _) => ThinkKeepsInv(w, s, a);
    case Execute(_, _, _) => ExecuteKeepsInv(w, s, a);
    case Decide(_, _) => DecideKeepsInv(w, s, a);
  }

  lemma {:induction false} RunKeepsInv(w: World, description: Option<string>, run: seq<Action>)
    requires Valid(w, Dispatched(description), run)
    ensures Inv(w, After(w, Dispatched(description), run))
  {
    if run != [] {
      var n := |run| - 1;
      RunKeepsInv(w, description, run[..n]);
      StepKeepsInv(w, After(w, Dispatched(description), run[..n]), run[n]);
    }
  }

  /** Over every run of one task: at most 50 model calls, never more queued events than one
      plus the requests granted, and each granted request dispatched once. */
  lemma LoopSafety(w: World, description: Option<string>, run: seq<Action>)
    requires Valid(w, Dispatched(description), run)
    ensures var s := After(w, Dispatched(description), run);
            && (w.taskFound ==> s.llmCalls <= 50)
            && |s.taskQueue| + |s.executionQueue| <= 1 + |s.grants|
            && (forall i, j :: 0 <= i < j < |s.grants| ==> s.grants[i] != s.grants[j])
            && (forall id: nat :: id < |s.messages| && s.messages[id].ApprovalRequest? ==>
                  (id in s.grants <==> s.messages[id].approval == Approved))
  {
    RunKeepsInv(w, description, run);
  }

  lemma StepExtends(w: World, s: State, a: Action)
    requires Inv(w, s) && Enabled(s, a)
    ensures Extends(s, Step(w, s, a))
  {
    match a
    case Think(_, _, _) => ThinkShape(w, s, a);
    case Execute(_, _, _) => ExecuteShape(w, s, a);
    case Decide(_, _) =>
  }

  /** A decision is final: a request once approved or denied keeps its entry for the rest of
      any run, so a denied one is never dispatched and deciding it again finds nothing. */
  lemma {:induction false} DecisionIsFinal(w: World, s: State, run: seq<Action>, id: nat)
    requires Inv(w, s) && Valid(w, s, run)
    requires id < |s.messages| && s.messages[id].ApprovalRequest? && s.messages[id].approval != Pending
    ensures var t := After(w, s, run);
            && Inv(w, t)
            && id < |t.messages| && t.messages[id] == s.messages[id]
            && (id in t.grants <==> s.messages[id].approval == Approved)
            && forall decision :: AfterDecision(t, id, decision) == (t, NotFound)
  {
    if run != [] {
      var m := |run| - 1;
      var u := After(w, s, run[..m]);
      DecisionIsFinal(w, s, run[..m], id);
      StepKeepsInv(w, u, run[m]);
      StepExtends(w, u, run[m]);
    }
  }

  // ---------------------------------------------------------------------------
  // Where the calls that ran came from

  function RawOf(c: Call): RawCall {
    RawCall(c.id, c.name, Some(c.args))
  }

  /** Some recorded answer of the model, all of whose arguments parse, holds this very call. */
  ghost predicate Asked(m: seq<Entry>, c: Call) {
    exists k :: 0 <= k < |m| && m[k].Assistant? && AllParse(m[k].calls) && RawOf(c) in m[k].calls
  }

  ghost predicate AllAsked(m: seq<Entry>, calls: seq<Call>) {
    forall i :: 0 <= i < |calls| ==> Asked(m, calls[i])
  }

  /** The call is one the model asked for, with the approval flag a grant sets. */
  ghost predicate GrantOfAsked(m: seq<Entry>, call: Call) {
    exists c :: Asked(m, c) && call == Grant(c)
  }

  ghost predicate RequestSourced(m: seq<Entry>, e: Entry)
    requires e.ApprovalRequest?
  {
    if e.approval == Approved then GrantOfAsked(m, e.call) else Asked(m, e.call)
  }

  ghost predicate QueueSourced(s: State) {
    forall i :: 0 <= i < |s.executionQueue| && s.executionQueue[i].granted.None? ==>
      AllAsked(s.messages, s.executionQueue[i].calls)
  }

  ghost predicate RunsSourced(s: State) {
    forall i :: 0 <= i < |s.executed| && s.executed[i].granted.None? ==> Asked(s.messages, s.executed[i].call)
  }

  ghost predicate RequestsSourced(s: State) {
    forall k :: 0 <= k < |s.messages| && s.messages[k].ApprovalRequest? ==> RequestSourced(s.messages, s.messages[k])
  }

  ghost predicate Sourced(s: State) {
    QueueSourced(s) && RunsSourced(s) && RequestsSourced(s)
  }

  lemma AskedGrows(m: seq<Entry>, n: seq<Entry>)
    requires |m| <= |n| && forall k :: 0 <= k < |m| && m[k].Assistant? ==> n[k] == m[k]
    ensures forall c :: Asked(m, c) ==> Asked(n, c)
    ensures forall c :: GrantOfAsked(m, c) ==> GrantOfAsked(n, c)
  {
    forall c | Asked(m, c)
      ensures Asked(n, c)
    {
      var k :| 0 <= k < |m| && m[k].Assistant? && AllParse(m[k].calls) && RawOf(c) in m[k].calls;
      assert n[k] == m[k];
    }
  }

  /** A step keeps the sources of what was there before. */
  lemma SourcesCarryOver(s: State, t: State)
    requires Sourced(s) && Extends(s, t)
    ensures forall c :: Asked(s.messages, c) ==> Asked(t.messages, c)
    ensures forall k :: 0 <= k < |s.messages| && t.messages[k] == s.messages[k] && s.messages[k].ApprovalRequest? ==>
              RequestSourced(t.messages, t.messages[k])
    ensures t.executed == s.executed ==> RunsSourced(t)
    ensures forall i :: 0 <= i < |s.executionQueue| && s.executionQueue[i].granted.None? ==>
              AllAsked(t.messages, s.executionQueue[i].calls)
  {
    AskedGrows(s.messages, t.messages);
  }

  lemma {:induction false} PayloadIsAsked(calls: seq<RawCall>)
    requires AllParse(calls)
    ensures forall i :: 0 <= i < |Payload(calls)| ==> RawOf(Payload(calls)[i]) in calls
  {
    if calls != [] {
      PayloadIsAsked(calls[..|calls| - 1]);
      assert calls[|calls| - 1] in calls;
    }
  }

  /** A dispatched batch follows the answer that asked for it. */
  lemma ThinkDispatches(w: World, s: State, a: Action)
    requires a.Think? && Enabled(s, a)
    ensures var t := Step(w, s, a);
            || t.executionQueue == s.executionQueue
            || (&& a.outcome.Answered? && AllParse(a.outcome.calls)
                && t.executionQueue == s.executionQueue + [Execution(Payload(a.outcome.calls), None)]
                && t.messages != [] && t.messages[|t.messages| - 1] == Assistant(a.outcome.content, a.outcome.calls))
  {
  }

  lemma ThinkKeepsSourced(w: World, s: State, a: Action)
    requires Inv(w, s) && a.Think? && Enabled(s, a) && Sourced(s)
    ensures Sourced(Step(w, s, a))
  {
    var t := Step(w, s, a);
    ThinkShape(w, s, a);
    StepExtends(w, s, a);
    SourcesCarryOver(s, t);
    ThinkDispatches(w, s, a);
    if t.executionQueue != s.executionQueue {
      PayloadIsAsked(a.outcome.calls);
      assert AllAsked(t.messages, Payload(a.outcome.calls));
    }
  }

  lemma ExecuteKeepsSourced(w: World, s: State, a: Action)
    requires Inv(w, s) && a.Execute? && Enabled(s, a) && Sourced(s)
    ensures Sourced(Step(w, s, a))
  {
    var t, event := Step(w, s, a), s.executionQueue[a.at];
    ExecuteShape(w, s, a);
    StepExtends(w, s, a);
    SourcesCarryOver(s, t);
    forall i | 0 <= i < |t.executed| && t.executed[i].granted.None?
      ensures Asked(t.messages, t.executed[i].call)
    {
      if i < |s.executed| {
        assert t.executed[i] == s.executed[i];
      }
    }
    forall k | |s.messages| <= k < |t.messages| && t.messages[k].ApprovalRequest?
      ensures t.messages[k].approval == Pending && Asked(t.messages, t.messages[k].call)
    {
      NewRequestIsAsked(w, s, a, k);
    }
  }

  lemma GrantedIsFlagged(w: World, s: State, at: nat)
    requires Inv(w, s) && RequestsSourced(s) && at < |s.executionQueue| && s.executionQueue[at].granted.Some?
    ensures forall i :: 0 <= i < |s.executionQueue[at].calls| ==> s.executionQueue[at].calls[i].args.approved
  {
    assert GrantMatches(s, s.executionQueue[at].calls, s.executionQueue[at].granted.value);
  }

  /** Only a batch adds requests: a granted call has its flag set and cannot pause. */
  lemma NewRequestIsAsked(w: World, s: State, a: Action, k: nat)
    requires Inv(w, s) && a.Execute? && Enabled(s, a) && Sourced(s)
    requires |s.messages| <= k < |Step(w, s, a).messages| && Step(w, s, a).messages[k].ApprovalRequest?
    ensures Asked(s.messages, Step(w, s, a).messages[k].call)
  {
    var event, i := s.executionQueue[a.at], k - |s.messages|;
    NewEntryIs(w, s, a, i);
    PausingIsAsked(w, s, a.at, i);
    PausesExactly(w.session, event.calls[i].name, event.calls[i].args, a.attempts[i].pathAllowed);
  }

  /** The messages of an execution are the entries of its calls, or one that the session is
      missing. */
  lemma NewEntryIs(w: World, s: State, a: Action, i: nat)
    requires a.Execute? && Enabled(s, a) && |s.messages| + i < |Step(w, s, a).messages|
    ensures var e, event := Step(w, s, a).messages[|s.messages| + i], s.executionQueue[a.at];
            if a.sessionFound then i < |event.calls| && e == ToolEntry(w.session, event.calls[i], a.attempts[i])
            else e.ToolResult?
  {
    var event := s.executionQueue[a.at];
    BatchShape(s.(executionQueue := Remove(s.executionQueue, a.at)), w.session, event.calls, a.attempts, event.granted);
  }

  lemma PausingIsAsked(w: World, s: State, at: nat, i: nat)
    requires Inv(w, s) && Sourced(s) && at < |s.executionQueue| && i < |s.executionQueue[at].calls|
    ensures var call := s.executionQueue[at].calls[i];
            Pauses(w.session, call.name, call.args) ==> Asked(s.messages, call)
  {
    if s.executionQueue[at].granted.Some? {
      GrantedIsFlagged(w, s, at);
    }
  }

  lemma DecideKeepsSourced(w: World, s: State, a: Action)
    requires Inv(w, s) && a.Decide? && Enabled(s, a) && Sourced(s)
    ensures Sourced(Step(w, s, a))
  {
    var t := Step(w, s, a);
    StepExtends(w, s, a);
    SourcesCarryOver(s, t);
    assert Asked(t.messages, s.messages[a.id].call);
    assert GrantOfAsked(t.messages, Grant(s.messages[a.id].call));
  }

  lemma {:induction false} RunKeepsSourced(w: World, description: Option<string>, run: seq<Action>)
    requires Valid(w, Dispatched(description), run)
    ensures Sourced(After(w, Dispatched(description), run))
  {
    if run != [] {
      var n := |run| - 1;
      var s, a := After(w, Dispatched(description), run[..n]), run[n];
      RunKeepsInv(w, description, run[..n]);
      RunKeepsSourced(w, description, run[..n]);
      match a
      case Think(_, _, _) => ThinkKeepsSourced(w, s, a);
      case Execute(_, _, _) => ExecuteKeepsSourced(w, s, a);
      case Decide(_, _) => DecideKeepsSourced(w, s, a);
    }
  }

  /** Every call that really ran, arguments included, is one the model asked for in a recorded
      answer, or the call of an approved request: one the model asked for, with the flag of
      the grant. */
  lemma RunsWereAsked(w: World, description: Option<string>, run: seq<Action>, i: nat)
    requires Valid(w, Dispatched(description), run)
    requires i < |After(w, Dispatched(description), run).executed|
    ensures var s := After(w, Dispatched(description), run);
            var r := s.executed[i];
            match r.granted
            case None => Asked(s.messages, r.call)
            case Some(id) =>
              && id in s.grants && id < |s.messages|
              && s.messages[id] == ApprovalRequest(r.call, Approved) && GrantOfAsked(s.messages, r.call)
  {
    RunKeepsInv(w, description, run);
    RunKeepsSourced(w, description, run);
    var s := After(w, Dispatched(description), run);
    assert RunSound(w, s, s.executed[i]);
  }

  /** Unless the user is an admin, a dangerous call that really ran is the very call of a
      request a human granted, or one whose flag the model's own answer had set. */
  lemma DangerousOnlyAfterApproval(w: World, description: Option<string>, run: seq<Action>, i: nat)
    requires Valid(w, Dispatched(description), run) && w.session.role != "admin"
    requires i < |After(w, Dispatched(description), run).executed|
    requires Dangerous(w.session, After(w, Dispatched(description), run).executed[i].call.name)
    ensures var s := After(w, Dispatched(description), run);
            var r := s.executed[i];
            && r.call.args.approved
            && match r.granted
               case None => Asked(s.messages, r.call)
               case Some(id) => WasGranted(s, r.call, id)
  {
    RunKeepsInv(w, description, run);
    RunsWereAsked(w, description, run, i);
    var s := After(w, Dispatched(description), run);
    assert RunSound(w, s, s.executed[i]);
  }

  // ---------------------------------------------------------------------------
  // When a human's grant is the only way for a dangerous call to run

  /** Every answer the model gives in the run is one it may give. */
  ghost predicate AnswersIn(run: seq<Action>, may: seq<RawCall> -> bool) {
    forall i :: 0 <= i < |run| && run[i].Think? && run[i].outcome.Answered? ==> may(run[i].outcome.calls)
  }

  ghost predicate AnswersRecorded(m: seq<Entry>, may: seq<RawCall> -> bool) {
    forall k :: 0 <= k < |m| && m[k].Assistant? && m[k].calls != [] ==> may(m[k].calls)
  }

  /** From the n-th message on, the only calls recorded are those of the answer. */
  ghost predicate Records(m: seq<Entry>, n: nat, outcome: Outcome) {
    forall k :: n <= k < |m| && m[k].Assistant? && m[k].calls != [] ==> outcome.Answered? && m[k].calls == outcome.calls
  }

  lemma OutcomeRecords(s: State, outcome: Outcome)
    ensures |s.messages| <= |AfterOutcome(s, outcome).messages|
    ensures Records(AfterOutcome(s, outcome).messages, |s.messages|, outcome)
  {
  }

  lemma ThinkRecords(w: World, s: State, a: Action)
    requires a.Think? && Enabled(s, a)
    ensures Records(Step(w, s, a).messages, |s.messages|, a.outcome)
  {
    if a.sessionFound && !(w.taskFound && s.iteration + 1 > MAX_ITERATIONS) {
      var s0, thought := s.(taskQueue := Remove(s.taskQueue, a.at)), s.taskQueue[a.at];
      var s1 := if w.taskFound then s0.(iteration := s0.iteration + 1) else s0;
      var s2 := if w.taskFound && s1.iteration == WRAP_UP_ITERATION then Note(s1, System("[SYSTEM] Wrap up task."))
        else s1;
      var s3 := if thought.description.Some? then Note(s2, User(thought.description.value)) else s2;
      assert Records(s3.messages, |s.messages|, a.outcome);
      OutcomeRecords(s3, a.outcome);
      OutcomeShape(s3, a.outcome);
    }
  }

  lemma StepRecords(w: World, s: State, a: Action, may: seq<RawCall> -> bool)
    requires Inv(w, s) && Enabled(s, a) && AnswersRecorded(s.messages, may)
    requires a.Think? && a.outcome.Answered? ==> may(a.outcome.calls)
    ensures AnswersRecorded(Step(w, s, a).messages, may)
  {
    StepExtends(w, s, a);
    match a
    case Think(_, _, _) => ThinkRecords(w, s, a);
    case Execute(_, _, _) => ExecuteRecords(w, s, a);
    case Decide(_, _) =>
  }

  lemma ExecuteRecords(w: World, s: State, a: Action)
    requires a.Execute? && Enabled(s, a)
    ensures var t := Step(w, s, a);
            forall k :: |s.messages| <= k < |t.messages| ==> !t.messages[k].Assistant?
  {
    var t := Step(w, s, a);
    forall k | |s.messages| <= k < |t.messages|
      ensures !t.messages[k].Assistant?
    {
      NewEntryIs(w, s, a, k - |s.messages|);
    }
  }

  lemma {:induction false} RunRecords(w: World, description: Option<string>, run: seq<Action>,
    may: seq<RawCall> -> bool)
    requires Valid(w, Dispatched(description), run) && AnswersIn(run, may)
    ensures AnswersRecorded(After(w, Dispatched(description), run).messages, may)
  {
    if run != [] {
      var n := |run| - 1;
      RunKeepsInv(w, description, run[..n]);
      RunRecords(w, description, run[..n], may);
      StepRecords(w, After(w, Dispatched(description), run[..n]), run[n], may);
    }
  }

  /** Every dangerous call that ran is the very call of a request a human granted. */
  ghost predicate HumanDecided(w: World, s: State) {
    forall i :: 0 <= i < |s.executed| && Dangerous(w.session, s.executed[i].call.name) ==>
      s.executed[i].granted.Some? && WasGranted(s, s.executed[i].call, s.executed[i].granted.value)
  }

  ghost predicate WasGranted(s: State, call: Call, id: nat) {
    id in s.grants && id < |s.messages| && s.messages[id] == ApprovalRequest(call, Approved)
  }

  /** Whatever run the model's permitted answers lead to, humans decide. */
  ghost predicate HumansDecide(w: World, may: seq<RawCall> -> bool) {
    forall description, run ::
      Valid(w, Dispatched(description), run) && AnswersIn(run, may) ==>
        HumanDecided(w, After(w, Dispatched(description), run))
  }

  /** No call of the answer is dangerous and would run just as it stands. */
  predicate NoneRunsUnasked(session: Session, calls: seq<RawCall>)
    requires AllParse(calls)
  {
    forall i :: 0 <= i < |calls| ==> !RunsUnasked(session, calls[i].name, calls[i].args.value)
  }

  ghost predicate AnswersAreSafe(w: World, may: seq<RawCall> -> bool) {
    forall calls: seq<RawCall> :: may(calls) && AllParse(calls) ==> NoneRunsUnasked(w.session, calls)
  }

  lemma SafeAnswersSuffice(w: World, description: Option<string>, run: seq<Action>, may: seq<RawCall> -> bool)
    requires Valid(w, Dispatched(description), run) && AnswersIn(run, may) && AnswersAreSafe(w, may)
    ensures HumanDecided(w, After(w, Dispatched(description), run))
  {
    var s := After(w, Dispatched(description), run);
    RunKeepsInv(w, description, run);
    RunRecords(w, description, run, may);
    forall i | 0 <= i < |s.executed| && Dangerous(w.session, s.executed[i].call.name)
      ensures s.executed[i].granted.Some? && WasGranted(s, s.executed[i].call, s.executed[i].granted.value)
    {
      var r := s.executed[i];
      RunsWereAsked(w, description, run, i);
      RunsUnaskedExactly(w.session, r.call.name, r.call.args);
      assert RunSound(w, s, r);
      if Asked(s.messages, r.call) {
        SafeCall(w, s.messages, r.call, may);
      }
    }
  }

  lemma SafeCall(w: World, m: seq<Entry>, call: Call, may: seq<RawCall> -> bool)
    requires AnswersRecorded(m, may) && AnswersAreSafe(w, may) && Asked(m, call)
    ensures !RunsUnasked(w.session, call.name, call.args)
  {
    var k :| 0 <= k < |m| && m[k].Assistant? && AllParse(m[k].calls) && RawOf(call) in m[k].calls;
    assert NoneRunsUnasked(w.session, m[k].calls);
  }

  /** An answer and the execution of its batch, every tool known and every path allowed. */
  function AskAndRun(calls: seq<RawCall>): seq<Action> {
    [Think(0, true, Answered("", calls)), Execute(0, true, seq(|calls|, _ => Attempt(true, true, "")))]
  }

  lemma {:induction false} UnaskedRuns(s: State, session: Session, calls: seq<Call>, attempts: seq<Attempt>, i: nat)
    requires |attempts| == |calls| && i < |calls|
    requires attempts[i].known && attempts[i].pathAllowed
    requires RunsUnasked(session, calls[i].name, calls[i].args)
    ensures Run(calls[i], None) in AfterCalls(s, session, calls, attempts, None).executed
  {
    var n := |calls| - 1;
    if i < n {
      UnaskedRuns(s, session, calls[..n], attempts[..n], i);
    }
  }

  lemma {:induction false} PayloadAt(calls: seq<RawCall>, i: nat)
    requires AllParse(calls) && i < |calls|
    ensures |Payload(calls)| == |calls| && Payload(calls)[i] == Call(calls[i].id, calls[i].name, calls[i].args.value)
  {
    PayloadLength(calls);
    if i < |calls| - 1 {
      PayloadAt(calls[..|calls| - 1], i);
    } else {
      PayloadLength(calls[..|calls| - 1]);
    }
  }

  /** The failing run: the answer's own flag stands in for a human's grant. */
  lemma UnaskedCallRuns(w: World, calls: seq<RawCall>, i: nat)
    requires AllParse(calls) && i < |calls| && RunsUnasked(w.session, calls[i].name, calls[i].args.value)
    ensures Valid(w, Dispatched(None), AskAndRun(calls))
    ensures var s := After(w, Dispatched(None), AskAndRun(calls));
            var call := Call(calls[i].id, calls[i].name, calls[i].args.value);
            Run(call, None) in s.executed && s.grants == [] && !HumanDecided(w, s)
  {
    var run := AskAndRun(calls);
    var s0, think, execute := Dispatched(None), run[0], run[1];
    PayloadAt(calls, i);
    assert run[..1] == [think] && run[..1][..0] == [];
    assert After(w, s0, []) == s0 && Valid(w, s0, []);
    assert Valid(w, s0, run[..1]) && After(w, s0, run[..1]) == Step(w, s0, think);
    var s1 := Step(w, s0, think);
    assert s1.executionQueue == [Execution(Payload(calls), None)] && s1.grants == [];
    assert Enabled(s1, execute);
    assert Valid(w, s0, run) && After(w, s0, run) == Step(w, s1, execute);
    var s2 := Step(w, s1, execute);
    UnaskedRuns(s1.(executionQueue := []), w.session, Payload(calls), execute.attempts, i);
    ExecuteShape(w, s1, execute);
    assert Remove(s1.executionQueue, 0) == [];
    var k :| 0 <= k < |s2.executed| && s2.executed[k] == Run(Payload(calls)[i], None);
    assert Dangerous(w.session, s2.executed[k].call.name) && s2.executed[k].granted.None?;
  }

  /** For every session: humans decide about dangerous calls, whatever the model's permitted
      answers, if and only if no such answer holds a dangerous call that would run just as it
      stands: unsimulated, and an admin's or permitted with the approval flag already set. */
  lemma HumansDecideExactly(w: World, may: seq<RawCall> -> bool)
    ensures HumansDecide(w, may) <==> AnswersAreSafe(w, may)
  {
    if AnswersAreSafe(w, may) {
      forall description, run | Valid(w, Dispatched(description), run) && AnswersIn(run, may)
        ensures HumanDecided(w, After(w, Dispatched(description), run))
      {
        SafeAnswersSuffice(w, description, run, may);
      }
    }
    if HumansDecide(w, may) {
      forall calls: seq<RawCall> | may(calls) && AllParse(calls)
        ensures NoneRunsUnasked(w.session, calls)
      {
        forall i | 0 <= i < |calls|
          ensures !RunsUnasked(w.session, calls[i].name, calls[i].args.value)
        {
          if RunsUnasked(w.session, calls[i].name, calls[i].args.value) {
            UnaskedCallRuns(w, calls, i);
            assert AnswersIn(AskAndRun(calls), may);
          }
        }
      }
    }
  }

  // ---------------------------------------------------------------------------
  // Every run ends

  function PendingRequests(messages: seq<Entry>): nat {
    if messages == [] then 0
    else
      var e := messages[|messages| - 1];
      PendingRequests(messages[..|messages| - 1]) + (if e.ApprovalRequest? && e.approval == Pending then 1 else 0)
  }

  function PausingCalls(session: Session, calls: seq<Call>): nat {
    if calls == [] then 0
    else
      var c := calls[|calls| - 1];
      PausingCalls(session, calls[..|calls| - 1]) + (if Pauses(session, c.name, c.args) then 1 else 0)
  }

  /** A batch weighs 2, and 3 more for each of its calls that will pause; a granted call
      cannot pause again, so its event weighs 2. */
  function EventWeight(session: Session, event: Execution): nat {
    2 + 3 * PausingCalls(session, event.calls)
  }

  function QueueWeight(session: Session, queue: seq<Execution>): nat {
    if queue == [] then 0
    else QueueWeight(session, queue[..|queue| - 1]) + EventWeight(session, queue[|queue| - 1])
  }

  /** A thought weighs 1, a pending request 3. */
  function Weight(w: World, s: State): nat {
    |s.taskQueue| + QueueWeight(w.session, s.executionQueue) + 3 * PendingRequests(s.messages)
  }

  /** Reasoning steps that may still call the model. */
  function Budget(s: State): nat {
    Max(0, MAX_ITERATIONS - s.iteration)
  }

  lemma {:induction false} QueueWeightRemove(session: Session, queue: seq<Execution>, i: nat)
    requires i < |queue|
    ensures QueueWeight(session, queue) == QueueWeight(session, Remove(queue, i)) + EventWeight(session, queue[i])
  {
    var n := |queue| - 1;
    if i < n {
      QueueWeightRemove(session, queue[..n], i);
      assert Remove(queue, i)[..n - 1] == Remove(queue[..n], i);
    } else {
      assert Remove(queue, i) == queue[..n];
    }
  }

  lemma {:induction false} PendingAppend(m: seq<Entry>, n: seq<Entry>)
    ensures PendingRequests(m + n) == PendingRequests(m) + PendingRequests(n)
  {
    if n == [] {
      assert m + n == m;
    } else {
      assert (m + n)[..|m + n| - 1] == m + n[..|n| - 1];
      PendingAppend(m, n[..|n| - 1]);
    }
  }

  lemma {:induction false} NonePending(m: seq<Entry>)
    requires forall i :: 0 <= i < |m| ==> !m[i].ApprovalRequest?
    ensures PendingRequests(m) == 0
  {
    if m != [] {
      NonePending(m[..|m| - 1]);
    }
  }

  /** Messages that are not requests leave the number of pending ones alone. */
  lemma QuietMessages(m: seq<Entry>, n: seq<Entry>)
    requires m <= n && forall i :: |m| <= i < |n| ==> !n[i].ApprovalRequest?
    ensures PendingRequests(n) == PendingRequests(m)
  {
    var added := n[|m|..];
    assert n == m + added;
    PendingAppend(m, added);
    NonePending(added);
  }

  lemma {:induction false} PendingSplit(m: seq<Entry>, i: nat, e: Entry)
    requires i < |m| && m[i].ApprovalRequest? && m[i].approval == Pending
    requires e.ApprovalRequest? && e.approval != Pending
    ensures PendingRequests(m) == PendingRequests(m[i := e]) + 1
  {
    var n := |m| - 1;
    if i < n {
      PendingSplit(m[..n], i, e);
      assert m[i := e][..n] == m[..n][i := e];
    } else {
      assert m[i := e][..n] == m[..n];
    }
  }

  /** A batch turns each of its pausing calls into one pending request. */
  lemma {:induction false} PausedBecomePending(s: State, session: Session, calls: seq<Call>, attempts: seq<Attempt>,
    granted: Option<nat>)
    requires |attempts| == |calls|
    ensures var t := AfterCalls(s, session, calls, attempts, granted);
            PendingRequests(t.messages) == PendingRequests(s.messages) + PausingCalls(session, calls)
    ensures PausingCalls(session, calls) == 0 <==> !AnyPauses(session, calls)
  {
    if calls != [] {
      var n := |calls| - 1;
      PausedBecomePending(s, session, calls[..n], attempts[..n], granted);
      assert calls == calls[..n] + [calls[n]];
      AnyPausesSnoc(session, calls[..n], calls[n]);
      OnePausedPending(AfterCalls(s, session, calls[..n], attempts[..n], granted), session, calls[n], attempts[n],
        granted);
    }
  }

  lemma OnePausedPending(s: State, session: Session, call: Call, attempt: Attempt, granted: Option<nat>)
    ensures PendingRequests(AfterCall(s, session, call, attempt, granted).messages) ==
            PendingRequests(s.messages) + (if Pauses(session, call.name, call.args) then 1 else 0)
  {
    PausesExactly(session, call.name, call.args, attempt.pathAllowed);
    assert (s.messages + [ToolEntry(session, call, attempt)])[..|s.messages|] == s.messages;
  }

  lemma ExecuteDropsWeight(w: World, s: State, a: Action)
    requires a.Execute? && Enabled(s, a)
    ensures Budget(Step(w, s, a)) == Budget(s) && Weight(w, Step(w, s, a)) < Weight(w, s)
  {
    var event := s.executionQueue[a.at];
    var s0, t := s.(executionQueue := Remove(s.executionQueue, a.at)), Step(w, s, a);
    ExecuteShape(w, s, a);
    QueueWeightRemove(w.session, s.executionQueue, a.at);
    if a.sessionFound {
      PausedBecomePending(s0, w.session, event.calls, a.attempts, event.granted);
    } else {
      assert t.messages[..|s.messages|] == s.messages;
    }
  }

  lemma DecideDropsWeight(w: World, s: State, a: Action)
    requires a.Decide? && Enabled(s, a)
    ensures Budget(Step(w, s, a)) == Budget(s) && Weight(w, Step(w, s, a)) < Weight(w, s)
  {
    var t, call := Step(w, s, a), s.messages[a.id].call;
    PendingSplit(s.messages, a.id, t.messages[a.id]);
    if a.decision != "denied" {
      var e := Execution([Grant(call)], Some(a.id));
      assert t.executionQueue[..|s.executionQueue|] == s.executionQueue;
      assert [Grant(call)][..0] == [];
      assert PausingCalls(w.session, [Grant(call)]) == 0;
      assert EventWeight(w.session, e) == 2;
    }
  }

  lemma ThinkDropsPair(w: World, s: State, a: Action)
    requires a.Think? && Enabled(s, a) && w.taskFound
    ensures var t := Step(w, s, a);
            Budget(t) < Budget(s) || (Budget(t) == Budget(s) && Weight(w, t) < Weight(w, s))
  {
    var t := Step(w, s, a);
    ThinkShape(w, s, a);
    if Budget(t) == Budget(s) {
      QuietMessages(s.messages, t.messages);
    }
  }

  /** Every handler step lowers the pair (model calls left, weight of what is queued or
      pending) in lexicographic order, whatever the outside answers. */
  lemma StepDropsPair(w: World, s: State, a: Action)
    requires Enabled(s, a) && w.taskFound
    ensures var t := Step(w, s, a);
            Budget(t) < Budget(s) || (Budget(t) == Budget(s) && Weight(w, t) < Weight(w, s))
  {
    match a
    case Think(_, _, _) => ThinkDropsPair(w, s, a);
    case Execute(_, _, _) => ExecuteDropsWeight(w, s, a);
    case Decide(_, _) => DecideDropsWeight(w, s, a);
  }

  /** The state an endless schedule has reached after n steps; a step that is not enabled
      leaves it where it is. */
  function StateAt(w: World, s: State, schedule: nat -> Action, n: nat): State {
    if n == 0 then s
    else
      var t := StateAt(w, s, schedule, n - 1);
      if Enabled(t, schedule(n - 1)) then Step(w, t, schedule(n - 1)) else t
  }

  lemma {:induction false} StuckEventually(w: World, s: State, schedule: nat -> Action, n: nat) returns (m: nat)
    requires w.taskFound
    ensures !Enabled(StateAt(w, s, schedule, m), schedule(m))
    decreases Budget(StateAt(w, s, schedule, n)), Weight(w, StateAt(w, s, schedule, n))
  {
    var t := StateAt(w, s, schedule, n);
    if Enabled(t, schedule(n)) {
      StepDropsPair(w, t, schedule(n));
      m := StuckEventually(w, s, schedule, n + 1);
    } else {
      m := n;
    }
  }

  /** Some step of the schedule is not enabled when its turn comes. */
  ghost predicate Ends(w: World, s: State, schedule: nat -> Action) {
    exists n :: !Enabled(StateAt(w, s, schedule, n), schedule(n))
  }

  ghost predicate EveryScheduleEnds(w: World) {
    forall s, schedule: nat -> Action :: Ends(w, s, schedule)
  }

  /** A model that asks for one more search for ever. */
  const RAW_SEARCH := RawCall("call", "web_search", Some(Args(false, false, "")))
  const SEARCH := Call("call", "web_search", Args(false, false, ""))
  const ASK := Think(0, true, Answered("", [RAW_SEARCH]))
  const ANSWER := Execute(0, true, [Attempt(true, true, "")])

  function Searching(n: nat): Action {
    if n % 2 == 0 then ASK else ANSWER
  }

  ghost predicate Asking(s: State, k: nat) {
    |s.taskQueue| == 1 && s.executionQueue == [] && s.llmCalls == k
  }

  ghost predicate Answering(s: State, k: nat) {
    s.taskQueue == [] && s.executionQueue == [Execution([SEARCH], None)] && s.llmCalls == k
  }

  lemma AskAgain(w: World, s: State, k: nat)
    requires !w.taskFound && Asking(s, k)
    ensures Enabled(s, ASK) && Answering(Step(w, s, ASK), k + 1)
  {
    assert [RAW_SEARCH][..0] == [];
    assert Payload([RAW_SEARCH]) == [SEARCH];
  }

  lemma AnswerAgain(w: World, s: State, k: nat)
    requires Answering(s, k)
    ensures Enabled(s, ANSWER) && Asking(Step(w, s, ANSWER), k)
  {
    ExecuteShape(w, s, ANSWER);
    assert !Pauses(w.session, SEARCH.name, SEARCH.args);
  }

  /** Where the endless search is after n steps. */
  ghost predicate Midway(s: State, n: nat) {
    if n % 2 == 0 then Asking(s, n / 2) else Answering(s, n / 2 + 1)
  }

  lemma SearchOnce(w: World, s: State, n: nat)
    requires !w.taskFound && Midway(s, n)
    ensures Enabled(s, Searching(n)) && Midway(Step(w, s, Searching(n)), n + 1)
  {
    if n % 2 == 0 {
      AskAgain(w, s, n / 2);
    } else {
      AnswerAgain(w, s, n / 2 + 1);
    }
  }

  /** What one step of the schedule carries from n to n + 1 holds after every number of steps. */
  lemma {:induction false} CarriedOn(
    w: World, s: State, schedule: nat -> Action, holds: (State, nat) -> bool, n: nat)
    requires holds(s, 0)
    requires forall t, k: nat :: holds(t, k) ==> Enabled(t, schedule(k)) && holds(Step(w, t, schedule(k)), k + 1)
    ensures holds(StateAt(w, s, schedule, n), n)
  {
    if n > 0 {
      CarriedOn(w, s, schedule, holds, n - 1);
      assert holds(StateAt(w, s, schedule, n), (n - 1) + 1);
    }
  }

  lemma SearchingGoesOn(w: World, n: nat)
    requires !w.taskFound
    ensures Midway(StateAt(w, Dispatched(None), Searching, n), n)
  {
    var holds := (t: State, k: nat) => Midway(t, k);
    forall t, k: nat | holds(t, k)
      ensures Enabled(t, Searching(k)) && holds(Step(w, t, Searching(k)), k + 1)
    {
      SearchOnce(w, t, k);
    }
    CarriedOn(w, Dispatched(None), Searching, holds, n);
    assert holds(StateAt(w, Dispatched(None), Searching, n), n);
  }

  /** The search never ends. */
  lemma SearchNeverEnds(w: World)
    requires !w.taskFound
    ensures !Ends(w, Dispatched(None), Searching)
  {
    forall n: nat
      ensures Enabled(StateAt(w, Dispatched(None), Searching, n), Searching(n))
    {
      SearchingGoesOn(w, n);
      SearchOnce(w, StateAt(w, Dispatched(None), Searching, n), n);
    }
  }

  /** With its row found, no schedule of a task's handlers runs for ever, from any state;
      without the row the iteration count never moves, and a model that keeps calling tools
      keeps the loop going without end. */
  lemma EndsExactly(w: World)
    ensures EveryScheduleEnds(w) <==> w.taskFound
  {
    if w.taskFound {
      forall s, schedule: nat -> Action
        ensures Ends(w, s, schedule)
      {
        var m := StuckEventually(w, s, schedule, 0);
      }
    } else {
      SearchNeverEnds(w);
      assert !Ends(w, Dispatched(None), Searching);
    }
  }

  // ---------------------------------------------------------------------------
  // How long a run can be

  ghost predicate AnswersUpTo(a: Action, b: nat) {
    a.Think? && a.outcome.Answered? ==> |a.outcome.calls| <= b
  }

  lemma {:induction false} PausingUpTo(session: Session, calls: seq<Call>)
    ensures PausingCalls(session, calls) <= |calls|
  {
    if calls != [] {
      PausingUpTo(session, calls[..|calls| - 1]);
    }
  }

  lemma {:induction false} PayloadLength(calls: seq<RawCall>)
    requires AllParse(calls)
    ensures |Payload(calls)| == |calls|
  {
    if calls != [] {
      PayloadLength(calls[..|calls| - 1]);
    }
  }

  /** All the steps a state has left, when no answer holds more than b calls. */
  function StepsLeft(w: World, s: State, b: nat): nat {
    Budget(s) * (3 * b + 2) + Weight(w, s)
  }

  lemma BatchWeight(session: Session, queue: seq<Execution>, calls: seq<RawCall>)
    requires AllParse(calls)
    ensures QueueWeight(session, queue + [Execution(Payload(calls), None)]) <=
            QueueWeight(session, queue) + 3 * |calls| + 2
  {
    var e := Execution(Payload(calls), None);
    assert (queue + [e])[..|queue|] == queue;
    PayloadLength(calls);
    PausingUpTo(session, e.calls);
  }

  lemma ThinkAddsAtMostABatch(w: World, s: State, a: Action, b: nat)
    requires a.Think? && Enabled(s, a) && w.taskFound && AnswersUpTo(a, b)
    ensures Weight(w, Step(w, s, a)) <= Weight(w, s) - 1 + 3 * b + 2
  {
    ThinkShape(w, s, a);
    ThinkDispatches(w, s, a);
    WeightOfThought(w, s, Step(w, s, a), a, b);
  }

  lemma WeightOfThought(w: World, s: State, t: State, a: Action, b: nat)
    requires a.Think? && a.at < |s.taskQueue| && AnswersUpTo(a, b)
    requires Reasoned(s.(taskQueue := Remove(s.taskQueue, a.at)), t)
    requires || t.executionQueue == s.executionQueue
             || (a.outcome.Answered? && AllParse(a.outcome.calls) &&
                 t.executionQueue == s.executionQueue + [Execution(Payload(a.outcome.calls), None)])
    ensures Weight(w, t) <= Weight(w, s) - 1 + 3 * b + 2
  {
    QuietMessages(s.messages, t.messages);
    if t.executionQueue != s.executionQueue {
      BatchWeight(w.session, s.executionQueue, a.outcome.calls);
    }
  }

  lemma PairToSum(w: World, s: State, t: State, b: nat)
    requires || (Budget(t) == Budget(s) && Weight(w, t) < Weight(w, s))
             || (Budget(t) + 1 == Budget(s) && Weight(w, t) <= Weight(w, s) - 1 + 3 * b + 2)
    ensures StepsLeft(w, t, b) < StepsLeft(w, s, b)
  {
    var n, batch := Budget(t), 3 * b + 2;
    assert (n + 1) * batch == n * batch + batch;
  }

  lemma StepUsesOne(w: World, s: State, a: Action, b: nat)
    requires Enabled(s, a) && w.taskFound && AnswersUpTo(a, b)
    ensures StepsLeft(w, Step(w, s, a), b) < StepsLeft(w, s, b)
  {
    match a
    case Think(_, _, _) =>
      ThinkDropsPair(w, s, a);
      ThinkShape(w, s, a);
      ThinkAddsAtMostABatch(w, s, a, b);
      PairToSum(w, s, Step(w, s, a), b);
    case Execute(_, _, _) =>
      ExecuteDropsWeight(w, s, a);
      PairToSum(w, s, Step(w, s, a), b);
    case Decide(_, _) =>
      DecideDropsWeight(w, s, a);
      PairToSum(w, s, Step(w, s, a), b);
  }

  /** If no answer holds more than b tool calls, a task takes at most 50 * (3 * b + 2) + 1
      handler steps, approvals included. */
  lemma {:induction false} RunLength(w: World, description: Option<string>, run: seq<Action>, b: nat)
    requires w.taskFound && Valid(w, Dispatched(description), run)
    requires forall i :: 0 <= i < |run| ==> AnswersUpTo(run[i], b)
    ensures |run| + StepsLeft(w, After(w, Dispatched(description), run), b) <= 50 * (3 * b + 2) + 1
  {
    if run != [] {
      var n := |run| - 1;
      RunLength(w, description, run[..n], b);
      StepUsesOne(w, After(w, Dispatched(description), run[..n]), run[n], b);
    }
  }
}
