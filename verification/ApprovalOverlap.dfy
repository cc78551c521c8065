/** Approval requests that overlap (src/api/rest/routers/chat.py): the endpoint holds no lock and
    awaits between looking at a pending request and marking it, so other requests and handlers
    can run in between. The handlers of the two workers stay atomic. */
module ApprovalOverlap {
  import opened Prelude
  import opened AgentLoop
  import opened AgentLoopProofs
  import opened AgentLoopRecords

  /** A call of the endpoint that found its request pending: what it saw, and whether it has
      gone on to mark. */
  datatype Visit = Visit(id: nat, decision: string, call: Call, marked: bool)

  datatype Server = Server(s: State, visits: seq<Visit>)

  datatype Event = Handle(a: Action) | Look(id: nat, decision: string) | Mark(visit: nat)

  predicate CanHandle(s: State, a: Action) {
    !a.Decide? && Enabled(s, a)
  }

  predicate CanMark(v: Server, at: nat) {
    at < |v.visits| && !v.visits[at].marked && v.visits[at].id < |v.s.messages|
  }

  /** What cannot happen does not happen; a look that finds nothing pending is answered with
      not-found. */
  function Next(w: World, v: Server, e: Event): Server {
    match e
    case Handle(a) => if CanHandle(v.s, a) then v.(s := Step(w, v.s, a)) else v
    case Look(id, decision) =>
      if IsPending(v.s, id) then v.(visits := v.visits + [Visit(id, decision, v.s.messages[id].call, false)]) else v
    case Mark(at) =>
      if !CanMark(v, at) then v
      else
        var r := v.visits[at];
        Server(AfterMark(v.s, r.id, r.call, r.decision), v.visits[at := r.(marked := true)])
  }

  function Served(w: World, description: Option<string>, h: seq<Event>): Server {
    if h == [] then Server(Dispatched(description), [])
    else Next(w, Served(w, description, h[..|h| - 1]), h[|h| - 1])
  }

  /** Without overlap, a look and its mark are one decision. */
  lemma LookThenMark(w: World, v: Server, id: nat, decision: string)
    ensures Next(w, Next(w, v, Look(id, decision)), Mark(|v.visits|)).s == AfterDecision(v.s, id, decision).0
  {
  }

  /** A look remembers the request as it stands, and an approving mark queues exactly one event
      with exactly one call: the one remembered, with its flag set, whatever happened since. */
  lemma MarkDispatchesWhatWasSeen(w: World, v: Server, id: nat, decision: string, later: Server, at: nat)
    requires IsPending(v.s, id) && decision != "denied"
    requires CanMark(later, at) && later.visits[at] == Next(w, v, Look(id, decision)).visits[|v.visits|]
    ensures var queue := Next(w, later, Mark(at)).s.executionQueue;
            && |queue| == |later.s.executionQueue| + 1 && later.s.executionQueue <= queue
            && var e := queue[|later.s.executionQueue|];
               && |e.calls| == 1 && e.granted == Some(id) && ApprovedForm(e.calls[0], v.s.messages[id].call)
  {
  }

  // ---------------------------------------------------------------------------
  // What every run keeps

  /** The queued events and the calls of the model are bounded as without overlap. */
  ghost predicate Bounded(w: World, s: State) {
    && |s.taskQueue| + |s.executionQueue| <= 1 + |s.grants|
    && (w.taskFound ==> s.llmCalls <= s.iteration && s.llmCalls <= MAX_ITERATIONS)
  }

  /** Every visit is one to a request, which is pending exactly until a visit has marked it. */
  ghost predicate VisitsSound(v: Server) {
    && (forall i :: 0 <= i < |v.visits| ==> IsRequest(v.s, v.visits[i].id))
    && (forall id: nat :: IsRequest(v.s, id) ==> (IsPending(v.s, id) <==> !Marked(v.visits, id)))
  }

  predicate IsRequest(s: State, id: nat) {
    id < |s.messages| && s.messages[id].ApprovalRequest?
  }

  ghost predicate Marked(visits: seq<Visit>, id: nat) {
    exists i :: 0 <= i < |visits| && visits[i].id == id && visits[i].marked
  }

  lemma HandleKeepsBounded(w: World, s: State, a: Action)
    requires Bounded(w, s) && CanHandle(s, a)
    ensures Bounded(w, Step(w, s, a))
  {
    if a.Think? {
      ThinkShape(w, s, a);
    } else {
      ExecuteShape(w, s, a);
    }
  }

  lemma HandleKeepsSound(w: World, v: Server, a: Action)
    requires VisitsSound(v) && CanHandle(v.s, a)
    ensures VisitsSound(v.(s := Step(w, v.s, a)))
  {
    if a.Think? {
      ThinkShape(w, v.s, a);
    } else {
      ExecuteShape(w, v.s, a);
    }
    var t := Step(w, v.s, a);
    forall id: nat | IsRequest(t, id)
      ensures IsPending(t, id) <==> !Marked(v.visits, id)
    {
      assert id < |v.s.messages| ==> t.messages[id] == v.s.messages[id];
    }
  }

  lemma LookKeepsSound(w: World, v: Server, id: nat, decision: string)
    requires VisitsSound(v)
    ensures VisitsSound(Next(w, v, Look(id, decision)))
  {
    var t := Next(w, v, Look(id, decision));
    forall x: nat
      ensures Marked(t.visits, x) <==> Marked(v.visits, x)
    {
      if i :| 0 <= i < |v.visits| && v.visits[i].id == x && v.visits[i].marked {
        assert t.visits[i] == v.visits[i];
      }
    }
  }

  lemma MarkKeepsSound(w: World, v: Server, at: nat)
    requires VisitsSound(v) && CanMark(v, at)
    ensures VisitsSound(Next(w, v, Mark(at)))
  {
    var t, r := Next(w, v, Mark(at)), v.visits[at];
    forall x: nat
      ensures Marked(t.visits, x) <==> Marked(v.visits, x) || x == r.id
    {
      assert t.visits[at].marked && t.visits[at].id == r.id;
      if i :| 0 <= i < |v.visits| && v.visits[i].id == x && v.visits[i].marked {
        assert t.visits[i] == v.visits[i];
      }
    }
  }

  lemma {:induction false} ServedIsSound(w: World, description: Option<string>, h: seq<Event>)
    ensures VisitsSound(Served(w, description, h)) && Bounded(w, Served(w, description, h).s)
  {
    if h != [] {
      var p, e := h[..|h| - 1], h[|h| - 1];
      var v := Served(w, description, p);
      ServedIsSound(w, description, p);
      match e
      case Handle(a) =>
        if CanHandle(v.s, a) {
          HandleKeepsSound(w, v, a);
          HandleKeepsBounded(w, v.s, a);
        }
      case Look(id, decision) => LookKeepsSound(w, v, id, decision);
      case Mark(at) =>
        if CanMark(v, at) {
          MarkKeepsSound(w, v, at);
        }
    }
  }

  // ---------------------------------------------------------------------------
  // How often a request is dispatched

  function Times(ids: seq<nat>, id: nat): nat {
    if ids == [] then 0 else Times(ids[..|ids| - 1], id) + (if ids[|ids| - 1] == id then 1 else 0)
  }

  predicate Approves(r: Visit, id: nat) {
    r.id == id && r.decision != "denied"
  }

  /** Visits that approve the request, and those of them that have marked it. */
  function Approving(visits: seq<Visit>, id: nat): nat {
    if visits == [] then 0
    else
      var n := |visits| - 1;
      Approving(visits[..n], id) + (if Approves(visits[n], id) then 1 else 0)
  }

  function Granting(visits: seq<Visit>, id: nat): nat {
    if visits == [] then 0
    else
      var n := |visits| - 1;
      Granting(visits[..n], id) + (if Approves(visits[n], id) && visits[n].marked then 1 else 0)
  }

  lemma {:induction false} MarkCounts(visits: seq<Visit>, at: nat, id: nat)
    requires at < |visits| && !visits[at].marked
    ensures var after := visits[at := visits[at].(marked := true)];
            && Approving(after, id) == Approving(visits, id)
            && Granting(after, id) == Granting(visits, id) + (if Approves(visits[at], id) then 1 else 0)
  {
    var n := |visits| - 1;
    var after := visits[at := visits[at].(marked := true)];
    if at < n {
      MarkCounts(visits[..n], at, id);
      assert after[..n] == visits[..n][at := visits[at].(marked := true)];
    } else {
      assert after[..n] == visits[..n];
    }
  }

  lemma {:induction false} GrantingIsPart(visits: seq<Visit>, id: nat)
    ensures Granting(visits, id) <= Approving(visits, id)
    ensures (forall i :: 0 <= i < |visits| ==> visits[i].marked) ==> Granting(visits, id) == Approving(visits, id)
  {
    if visits != [] {
      GrantingIsPart(visits[..|visits| - 1], id);
    }
  }

  /** The i-th event is an approving look at the request that finds it pending. */
  predicate Finds(w: World, description: Option<string>, h: seq<Event>, i: nat, id: nat) {
    && i < |h| && h[i].Look? && h[i].id == id && h[i].decision != "denied"
    && IsPending(Served(w, description, h[..i]).s, id)
  }

  function Looks(w: World, description: Option<string>, h: seq<Event>, id: nat): nat {
    if h == [] then 0
    else
      var n := |h| - 1;
      Looks(w, description, h[..n], id) + (if Finds(w, description, h, n, id) then 1 else 0)
  }

  lemma NextGrants(w: World, v: Server, e: Event, id: nat)
    requires Times(v.s.grants, id) == Granting(v.visits, id)
    ensures Times(Next(w, v, e).s.grants, id) == Granting(Next(w, v, e).visits, id)
    ensures Approving(Next(w, v, e).visits, id) ==
            Approving(v.visits, id) +
            (if e.Look? && e.id == id && e.decision != "denied" && IsPending(v.s, id) then 1 else 0)
  {
    var t := Next(w, v, e);
    match e
    case Handle(a) =>
      if CanHandle(v.s, a) {
        HandleKeepsGrants(w, v.s, a);
      }
    case Look(_, _) =>
      if |t.visits| > |v.visits| {
        assert t.visits[..|v.visits|] == v.visits;
      }
    case Mark(at) =>
      if CanMark(v, at) {
        MarkCounts(v.visits, at, id);
        if t.s.grants != v.s.grants {
          assert t.s.grants[..|v.s.grants|] == v.s.grants;
        }
      }
  }

  lemma HandleKeepsGrants(w: World, s: State, a: Action)
    requires CanHandle(s, a)
    ensures Step(w, s, a).grants == s.grants
  {
    if a.Think? {
      ThinkShape(w, s, a);
    } else {
      ExecuteShape(w, s, a);
    }
  }

  lemma {:induction false} GrantsAreCounted(w: World, description: Option<string>, h: seq<Event>, id: nat)
    ensures var v := Served(w, description, h);
            Times(v.s.grants, id) == Granting(v.visits, id) && Approving(v.visits, id) == Looks(w, description, h, id)
  {
    if h != [] {
      var p := h[..|h| - 1];
      GrantsAreCounted(w, description, p, id);
      NextGrants(w, Served(w, description, p), h[|h| - 1], id);
    }
  }

  /** Every call of the endpoint that found its request pending has run to its end. */
  predicate Complete(v: Server) {
    forall i :: 0 <= i < |v.visits| ==> v.visits[i].marked
  }

  /** Over every run with any overlap: a request is dispatched at most as often as approving
      looks found it pending, and exactly as often once all of them have run to their end. */
  lemma DispatchesAreLooks(w: World, description: Option<string>, h: seq<Event>, id: nat)
    ensures var v := Served(w, description, h);
            && Times(v.s.grants, id) <= Looks(w, description, h, id)
            && (Complete(v) ==> Times(v.s.grants, id) == Looks(w, description, h, id))
  {
    GrantsAreCounted(w, description, h, id);
    GrantingIsPart(Served(w, description, h).visits, id);
  }

  /** A look finds a request pending exactly when it was posted and no earlier visit has marked
      it yet. */
  lemma PendingUntilMarked(w: World, description: Option<string>, h: seq<Event>, id: nat)
    ensures var v := Served(w, description, h);
            IsPending(v.s, id) <==> IsRequest(v.s, id) && !Marked(v.visits, id)
  {
    ServedIsSound(w, description, h);
  }

  lemma {:induction false} LooksCount(w: World, description: Option<string>, h: seq<Event>, id: nat)
    ensures Looks(w, description, h, id) >= 1 <==> exists i :: Finds(w, description, h, i, id)
    ensures Looks(w, description, h, id) >= 2 <==>
            exists i, j :: i < j && Finds(w, description, h, i, id) && Finds(w, description, h, j, id)
  {
    if h != [] {
      var n := |h| - 1;
      LooksCount(w, description, h[..n], id);
      forall i: nat | i < n
        ensures Finds(w, description, h[..n], i, id) <==> Finds(w, description, h, i, id)
      {
        assert h[..n][..i] == h[..i];
      }
      LooksGrow(w, description, h, id);
    }
  }

  lemma LooksGrow(w: World, description: Option<string>, h: seq<Event>, id: nat)
    requires h != []
    requires var n := |h| - 1;
             forall i: nat :: i < n ==> (Finds(w, description, h[..n], i, id) <==> Finds(w, description, h, i, id))
    ensures var n := |h| - 1;
            (exists i :: Finds(w, description, h, i, id)) <==>
            (exists i :: Finds(w, description, h[..n], i, id)) || Finds(w, description, h, n, id)
    ensures var n := |h| - 1;
            (exists i, j :: i < j && Finds(w, description, h, i, id) && Finds(w, description, h, j, id)) <==>
            (exists i, j :: i < j && Finds(w, description, h[..n], i, id) && Finds(w, description, h[..n], j, id)) ||
            ((exists i :: Finds(w, description, h[..n], i, id)) && Finds(w, description, h, n, id))
  {
  }

  /** In every complete run, a request is dispatched at most once exactly when no two approving
      looks found it pending, the second before the first had marked it. */
  lemma DispatchedOnceExactly(w: World, description: Option<string>, h: seq<Event>, id: nat)
    requires Complete(Served(w, description, h))
    ensures Times(Served(w, description, h).s.grants, id) <= 1 <==>
            !exists i, j :: i < j && Finds(w, description, h, i, id) && Finds(w, description, h, j, id)
  {
    DispatchesAreLooks(w, description, h, id);
    LooksCount(w, description, h, id);
  }

  /** The failing run, from every state with a pending request: two approvals look before either
      marks, and the call is queued twice. */
  lemma OverlapDispatchesTwice(w: World, v: Server, id: nat, decision: string)
    requires IsPending(v.s, id) && decision != "denied"
    ensures var n, look := |v.visits|, Look(id, decision);
            var t := Next(w, Next(w, Next(w, Next(w, v, look), look), Mark(n)), Mark(n + 1));
            var e := Execution([Grant(v.s.messages[id].call)], Some(id));
            t.s.grants == v.s.grants + [id] + [id] && t.s.executionQueue == v.s.executionQueue + [e] + [e]
  {
  }

  /** Overlap or not: at most 50 calls of the model when the task is found, and never more queued
      events than one plus the dispatches of approved calls. */
  lemma OverlapSafety(w: World, description: Option<string>, h: seq<Event>)
    ensures var s := Served(w, description, h).s;
            && (w.taskFound ==> s.llmCalls <= 50)
            && |s.taskQueue| + |s.executionQueue| <= 1 + |s.grants|
  {
    ServedIsSound(w, description, h);
  }
}
