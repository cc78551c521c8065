/** The in-process durable broker
    (src/infrastructure/queue/redis_streams_broker/local_broker.py): streams with competing
    consumers, three attempts per message, a dead-letter list, and consumers that may be
    cancelled at any await.

    A `subscribe` call never returns, so it is cut at its awaits: taking a message from the
    queue, and the three ways the callback can end. Between awaits the code is atomic. */
module DurableBroker {
  import opened Prelude

  datatype Status = Pending | Processing | Completed | DeadLetter

  datatype Message = Message(
    stream: string,
    data: string,
    group: Option<string>,
    status: Status,
    attempts: nat,
    error: Option<string>)

  /** A suspended `subscribe` coroutine: what it holds, and whether it still runs. */
  datatype Consumer = Consumer(stream: string, group: string, hand: Option<nat>, running: bool)

  /** Messages are addressed by the counter that makes their id unique. */
  datatype State = State(
    counter: nat,
    messages: map<nat, Message>,
    queues: map<string, seq<nat>>,
    pending: set<nat>,
    completed: set<nat>,
    dlq: seq<nat>,
    consumers: seq<Consumer>)

  const INITIAL := State(0, map[], map[], {}, {}, [], [])

  datatype Event =
    | Publish(stream: string, data: string)
    | Subscribe(stream: string, group: string)
    | Deliver(consumer: nat)
    | Succeed(consumer: nat)
    | Fail(consumer: nat, error: string)
    | Cancel(consumer: nat)

  predicate Enabled(s: State, e: Event) {
    match e
    case Publish(_, _) => true
    case Subscribe(_, _) => true
    case Deliver(c) => c < |s.consumers| && s.consumers[c].running && s.consumers[c].hand.None?
      && QueueOf(s, s.consumers[c].stream) != []
    case Succeed(c) => Holds(s, c)
    case Fail(c, _) => Holds(s, c)
    case Cancel(c) => c < |s.consumers| && s.consumers[c].running
  }

  predicate Holds(s: State, c: nat) {
    && c < |s.consumers| && s.consumers[c].running
    && s.consumers[c].hand.Some? && s.consumers[c].hand.value in s.messages
  }

  function QueueOf(s: State, stream: string): seq<nat> {
    if stream in s.queues then s.queues[stream] else []
  }

  function AfterPublish(s: State, stream: string, data: string): State {
    var id := s.counter + 1;
    if stream in s.queues then
      s.(counter := id,
         messages := s.messages[id := Message(stream, data, None, Pending, 0, None)],
         queues := s.queues[stream := s.queues[stream] + [id]])
    else s.(counter := id)
  }

  function AfterSubscribe(s: State, stream: string, group: string): State {
    s.(queues := if stream in s.queues then s.queues else s.queues[stream := []],
       consumers := s.consumers + [Consumer(stream, group, None, true)])
  }

  function AfterDeliver(s: State, c: nat): State
    requires Enabled(s, Deliver(c))
  {
    var me := s.consumers[c];
    var q := QueueOf(s, me.stream);
    var id := q[0];
    var s1 := s.(queues := s.queues[me.stream := q[1..]]);
    if id in s.completed || id !in s.messages then s1
    else s1.(messages := s.messages[id := s.messages[id].(group := Some(me.group), status := Processing)],
             pending := s.pending + {id},
             consumers := s.consumers[c := me.(hand := Some(id))])
  }

  function AfterSucceed(s: State, c: nat): State
    requires Holds(s, c)
  {
    var id := s.consumers[c].hand.value;
    var s1 := s.(messages := s.messages[id := s.messages[id].(status := Completed)], completed := s.completed + {id});
    if id in s.pending then
      s1.(pending := s.pending - {id}, consumers := s.consumers[c := s.consumers[c].(hand := None)])
    else AfterFail(s1, c, "KeyError")
  }

  function AfterFail(s: State, c: nat, error: string): State
    requires Holds(s, c)
  {
    var me := s.consumers[c];
    var id := me.hand.value;
    var m := s.messages[id].(attempts := s.messages[id].attempts + 1);
    var s1 := s.(consumers := s.consumers[c := me.(hand := None)]);
    if m.attempts >= 3 then
      s1.(messages := s.messages[id := m.(status := DeadLetter, error := Some(error))], dlq := s.dlq + [id])
    else
      s1.(messages := s.messages[id := m], queues := s.queues[me.stream := QueueOf(s, me.stream) + [id]])
  }

  function AfterCancel(s: State, c: nat): State
    requires Enabled(s, Cancel(c))
  {
    s.(consumers := s.consumers[c := s.consumers[c].(running := false)])
  }

  /** An event that is not enabled does not happen. */
  function Step(s: State, e: Event): State {
    if !Enabled(s, e) then s
    else
      match e
      case Publish(stream, data) => AfterPublish(s, stream, data)
      case Subscribe(stream, group) => AfterSubscribe(s, stream, group)
      case Deliver(c) => AfterDeliver(s, c)
      case Succeed(c) => AfterSucceed(s, c)
      case Fail(c, error) => AfterFail(s, c, error)
      case Cancel(c) => AfterCancel(s, c)
  }

  function Run(h: seq<Event>): State {
    if h == [] then INITIAL else Step(Run(h[..|h| - 1]), h[|h| - 1])
  }

  class LocalDurableBroker {
    var counter: nat
    var messages: map<nat, Message>
    var streams: map<string, seq<nat>>
    var pending: set<nat>
    var completed: set<nat>
    var dlq: seq<nat>
    var consumers: seq<Consumer>

    ghost function Value(): State
      reads this
    {
      State(counter, messages, streams, pending, completed, dlq, consumers)
    }

    constructor ()
      ensures Value() == INITIAL
    {
      counter, messages, streams := 0, map[], map[];
      pending, completed, dlq, consumers := {}, {}, [], [];
    }

    method Publish(stream: string, data: string) returns (id: nat)
      modifies this
      ensures id == old(counter) + 1
      ensures Value() == AfterPublish(old(Value()), stream, data)
    {
      counter := counter + 1;
      id := counter;
      var message := Message(stream, data, None, Pending, 0, None);
      if stream in streams {
        messages := messages[id := message];
        streams := streams[stream := streams[stream] + [id]];
      }
    }

    /** The start of `subscribe`, up to its first await. */
    method Subscribe(stream: string, group: string) returns (c: nat)
      modifies this
      ensures c == |old(consumers)|
      ensures Value() == AfterSubscribe(old(Value()), stream, group)
    {
      if stream !in streams {
        streams := streams[stream := []];
      }
      c := |consumers|;
      consumers := consumers + [Consumer(stream, group, None, true)];
    }

    /** From `get()` returning to the callback's first await. */
    method Deliver(c: nat)
      requires Enabled(Value(), Event.Deliver(c))
      modifies this
      ensures Value() == AfterDeliver(old(Value()), c)
    {
      var me := consumers[c];
      var id := streams[me.stream][0];
      streams := streams[me.stream := streams[me.stream][1..]];
      if id in completed || id !in messages {
        return;
      }
      messages := messages[id := messages[id].(group := Some(me.group), status := Processing)];
      pending := pending + {id};
      consumers := consumers[c := me.(hand := Some(id))];
    }

    /** The callback returned. */
    method Succeed(c: nat)
      requires Holds(Value(), c)
      modifies this
      ensures Value() == AfterSucceed(old(Value()), c)
    {
      var id := consumers[c].hand.value;
      messages := messages[id := messages[id].(status := Completed)];
      completed := completed + {id};
      if id in pending {
        pending := pending - {id};
        consumers := consumers[c := consumers[c].(hand := None)];
      } else {
        Fail(c, "KeyError");
      }
    }

    /** The callback raised. */
    method Fail(c: nat, error: string)
      requires Holds(Value(), c)
      modifies this
      ensures Value() == AfterFail(old(Value()), c, error)
    {
      var me := consumers[c];
      var id := me.hand.value;
      messages := messages[id := messages[id].(attempts := messages[id].attempts + 1)];
      if messages[id].attempts >= 3 {
        messages := messages[id := messages[id].(status := DeadLetter, error := Some(error))];
        dlq := dlq + [id];
      } else {
        streams := streams[me.stream := (if me.stream in streams then streams[me.stream] else []) + [id]];
      }
      consumers := consumers[c := me.(hand := None)];
    }

    /** The task was cancelled, with or without a message in hand. */
    method Cancel(c: nat)
      requires Enabled(Value(), Event.Cancel(c))
      modifies this
      ensures Value() == AfterCancel(old(Value()), c)
    {
      consumers := consumers[c := consumers[c].(running := false)];
    }
  }

  // ---------------------------------------------------------------------------
  // Conservation

  ghost predicate NoRepeats(s: seq<nat>) {
    forall i, j :: 0 <= i < j < |s| ==> s[i] != s[j]
  }

  ghost predicate InHand(s: State, id: nat) {
    exists c :: 0 <= c < |s.consumers| && s.consumers[c].hand == Some(id)
  }

  ghost predicate InQueue(s: State, id: nat) {
    id in s.messages && id in QueueOf(s, s.messages[id].stream)
  }

  ghost predicate QueuesSound(s: State) {
    forall st :: st in s.queues ==>
      && NoRepeats(s.queues[st])
      && forall id :: id in s.queues[st] ==> id in s.messages && s.messages[id].stream == st
  }

  ghost predicate HandsSound(s: State) {
    && (forall c :: 0 <= c < |s.consumers| ==> s.consumers[c].stream in s.queues)
    && (forall c :: 0 <= c < |s.consumers| && s.consumers[c].hand.Some? ==>
          && s.consumers[c].hand.value in s.messages
          && s.messages[s.consumers[c].hand.value].stream == s.consumers[c].stream
          && s.consumers[c].hand.value in s.pending)
    && (forall c, d :: 0 <= c < d < |s.consumers| && s.consumers[c].hand.Some? ==>
          s.consumers[c].hand != s.consumers[d].hand)
  }

  /** Each message is in exactly one place. */
  ghost predicate PlacesSound(s: State) {
    forall id :: id in s.messages ==>
      && 1 <= id <= s.counter
      && (InQueue(s, id) ==> id !in s.completed && id !in s.dlq && !InHand(s, id))
      && (InHand(s, id) ==> id !in s.completed && id !in s.dlq)
      && (id in s.dlq ==> id !in s.completed)
      && (InQueue(s, id) || InHand(s, id) || id in s.completed || id in s.dlq)
      && (id in s.completed ==> id !in s.pending)
      && (id in s.dlq <==> s.messages[id].attempts == 3)
      && (id in s.dlq <==> s.messages[id].status == DeadLetter)
      && (id in s.completed <==> s.messages[id].status == Completed)
      && s.messages[id].attempts <= 3
  }

  ghost predicate Inv(s: State) {
    && QueuesSound(s) && HandsSound(s) && PlacesSound(s)
    && NoRepeats(s.dlq) && (forall id :: id in s.dlq ==> id in s.messages)
    && s.completed <= s.messages.Keys
  }

  lemma PublishKeepsQueues(s: State, stream: string, data: string)
    requires Inv(s)
    ensures QueuesSound(AfterPublish(s, stream, data))
    ensures forall x :: x in s.messages ==> (InQueue(AfterPublish(s, stream, data), x) <==> InQueue(s, x))
  {
    var s', id := AfterPublish(s, stream, data), s.counter + 1;
    assert id !in s.messages;
    if stream in s.queues {
      assert forall x :: x in s'.queues[stream] <==> x in s.queues[stream] || x == id;
    }
  }

  lemma PublishKeepsInv(s: State, stream: string, data: string)
    requires Inv(s)
    ensures Inv(AfterPublish(s, stream, data))
  {
    var s', id := AfterPublish(s, stream, data), s.counter + 1;
    PublishKeepsQueues(s, stream, data);
    HandsOnly(s, s');
    assert id !in s.messages && !InHand(s, id);
    assert stream in s.queues ==> InQueue(s', id);
  }

  lemma SubscribeKeepsHands(s: State, stream: string, group: string)
    ensures forall id: nat :: InHand(AfterSubscribe(s, stream, group), id) <==> InHand(s, id)
  {
    var s' := AfterSubscribe(s, stream, group);
    forall id: nat | InHand(s, id)
      ensures InHand(s', id)
    {
      var c :| 0 <= c < |s.consumers| && s.consumers[c].hand == Some(id);
      assert s'.consumers[c] == s.consumers[c];
    }
  }

  lemma SubscribeKeepsInv(s: State, stream: string, group: string)
    requires Inv(s)
    ensures Inv(AfterSubscribe(s, stream, group))
  {
    var s' := AfterSubscribe(s, stream, group);
    SubscribeKeepsHands(s, stream, group);
    assert forall id :: id in s.messages ==> (InQueue(s', id) <==> InQueue(s, id));
  }

  lemma CancelKeepsInv(s: State, c: nat)
    requires Inv(s) && Enabled(s, Cancel(c))
    ensures Inv(AfterCancel(s, c))
  {
    var s' := AfterCancel(s, c);
    assert forall d :: 0 <= d < |s.consumers| ==>
           s'.consumers[d].hand == s.consumers[d].hand && s'.consumers[d].stream == s.consumers[d].stream;
    HandsOnly(s, s');
    assert forall id :: id in s.messages ==> (InQueue(s', id) <==> InQueue(s, id));
  }

  lemma HandsOnly(s: State, s': State)
    requires |s.consumers| == |s'.consumers|
    requires forall d :: 0 <= d < |s.consumers| ==> s'.consumers[d].hand == s.consumers[d].hand
    ensures forall id: nat :: InHand(s', id) <==> InHand(s, id)
  {
    forall id: nat
      ensures InHand(s', id) <==> InHand(s, id)
    {
      if InHand(s, id) {
        var c :| 0 <= c < |s.consumers| && s.consumers[c].hand == Some(id);
        assert s'.consumers[c].hand == Some(id);
      }
      if InHand(s', id) {
        var c :| 0 <= c < |s'.consumers| && s'.consumers[c].hand == Some(id);
        assert s.consumers[c].hand == Some(id);
      }
    }
  }

  /** Giving consumer c another hand changes who is in hand only for the two messages. */
  lemma HandChanged(s: State, s': State, c: nat)
    requires c < |s.consumers| && |s.consumers| == |s'.consumers|
    requires forall d :: 0 <= d < |s.consumers| && d != c ==> s'.consumers[d].hand == s.consumers[d].hand
    ensures forall id: nat :: Some(id) != s.consumers[c].hand && Some(id) != s'.consumers[c].hand ==>
            (InHand(s', id) <==> InHand(s, id))
    ensures s'.consumers[c].hand.Some? ==> InHand(s', s'.consumers[c].hand.value)
  {
    forall id: nat | Some(id) != s.consumers[c].hand && Some(id) != s'.consumers[c].hand
      ensures InHand(s', id) <==> InHand(s, id)
    {
      if InHand(s, id) {
        var d :| 0 <= d < |s.consumers| && s.consumers[d].hand == Some(id);
        assert s'.consumers[d].hand == Some(id);
      }
      if InHand(s', id) {
        var d :| 0 <= d < |s'.consumers| && s'.consumers[d].hand == Some(id);
        assert s.consumers[d].hand == Some(id);
      }
    }
  }

  /** The message at the head of a queue has never succeeded: the check against
      `_completed` never fires, and what is taken ends up in hand. */
  lemma HeadIsLive(s: State, c: nat)
    requires Inv(s) && Enabled(s, Deliver(c))
    ensures var id := QueueOf(s, s.consumers[c].stream)[0];
            id in s.messages && id !in s.completed && s.messages[id].attempts < 3 && !InHand(s, id)
  {
    var st := s.consumers[c].stream;
    var id := s.queues[st][0];
    assert id in s.queues[st];
    assert InQueue(s, id);
  }

  lemma DeliverKeepsQueuesAndHands(s: State, c: nat)
    requires Inv(s) && Enabled(s, Deliver(c))
    ensures QueuesSound(AfterDeliver(s, c)) && HandsSound(AfterDeliver(s, c))
  {
    var q := s.queues[s.consumers[c].stream];
    HeadIsLive(s, c);
    assert forall x :: x in q[1..] ==> x in q;
    assert forall d :: 0 <= d < |s.consumers| && d != c ==> s.consumers[d].hand != Some(q[0]);
  }

  lemma DeliverKeepsInv(s: State, c: nat)
    requires Inv(s) && Enabled(s, Deliver(c))
    ensures Inv(AfterDeliver(s, c))
  {
    var s', q := AfterDeliver(s, c), s.queues[s.consumers[c].stream];
    HeadIsLive(s, c);
    DeliverKeepsQueuesAndHands(s, c);
    HandChanged(s, s', c);
    assert forall x :: x in q[1..] <==> x in q && x != q[0];
    forall x | x in s.messages
      ensures InQueue(s', x) <==> InQueue(s, x) && x != q[0]
    {
    }
  }

  lemma SucceedKeepsHands(s: State, c: nat)
    requires Inv(s) && Holds(s, c)
    ensures HandsSound(AfterSucceed(s, c))
    ensures var id := s.consumers[c].hand.value;
            forall x: nat :: InHand(AfterSucceed(s, c), x) <==> InHand(s, x) && x != id
  {
    HeldIsElsewhere(s, c);
    HandChanged(s, AfterSucceed(s, c), c);
  }

  lemma SucceedKeepsPlaces(s: State, c: nat)
    requires Inv(s) && Holds(s, c)
    ensures PlacesSound(AfterSucceed(s, c))
  {
    var s', id := AfterSucceed(s, c), s.consumers[c].hand.value;
    HeldIsElsewhere(s, c);
    SucceedKeepsHands(s, c);
    assert forall x :: x in s.messages ==> (InQueue(s', x) <==> InQueue(s, x));
  }

  lemma SucceedKeepsInv(s: State, c: nat)
    requires Inv(s) && Holds(s, c)
    ensures Inv(AfterSucceed(s, c))
    ensures s.consumers[c].hand.value in s.pending
  {
    SucceedKeepsHands(s, c);
    SucceedKeepsPlaces(s, c);
  }

  lemma HeldIsElsewhere(s: State, c: nat)
    requires Inv(s) && Holds(s, c)
    ensures var id := s.consumers[c].hand.value;
            && InHand(s, id) && s.consumers[c].stream in s.queues
            && s.messages[id].stream == s.consumers[c].stream && s.messages[id].attempts < 3
            && id !in QueueOf(s, s.consumers[c].stream) && id !in s.dlq && id !in s.completed
            && (forall d :: 0 <= d < |s.consumers| && d != c ==> s.consumers[d].hand != Some(id))
  {
    var id := s.consumers[c].hand.value;
    assert InHand(s, id);
    assert id in QueueOf(s, s.consumers[c].stream) ==> InQueue(s, id);
  }

  lemma FailKeepsHands(s: State, c: nat, error: string)
    requires Inv(s) && Holds(s, c)
    ensures HandsSound(AfterFail(s, c, error))
    ensures var id := s.consumers[c].hand.value;
            forall x: nat :: InHand(AfterFail(s, c, error), x) <==> InHand(s, x) && x != id
  {
    HeldIsElsewhere(s, c);
    HandChanged(s, AfterFail(s, c, error), c);
  }

  lemma RequeueKeepsQueues(s: State, c: nat, error: string)
    requires Inv(s) && Holds(s, c) && s.messages[s.consumers[c].hand.value].attempts + 1 < 3
    ensures QueuesSound(AfterFail(s, c, error))
    ensures forall x :: x in s.messages ==>
              (InQueue(AfterFail(s, c, error), x) <==> InQueue(s, x) || x == s.consumers[c].hand.value)
  {
    var s', id, st := AfterFail(s, c, error), s.consumers[c].hand.value, s.consumers[c].stream;
    HeldIsElsewhere(s, c);
    assert forall x :: x in s'.queues[st] <==> x in s.queues[st] || x == id;
  }

  lemma RequeueKeepsInv(s: State, c: nat, error: string)
    requires Inv(s) && Holds(s, c) && s.messages[s.consumers[c].hand.value].attempts + 1 < 3
    ensures Inv(AfterFail(s, c, error))
  {
    HeldIsElsewhere(s, c);
    FailKeepsHands(s, c, error);
    RequeueKeepsQueues(s, c, error);
  }

  lemma DeadLetterKeepsPlaces(s: State, c: nat, error: string)
    requires Inv(s) && Holds(s, c) && s.messages[s.consumers[c].hand.value].attempts + 1 >= 3
    ensures PlacesSound(AfterFail(s, c, error))
  {
    var s', id := AfterFail(s, c, error), s.consumers[c].hand.value;
    HeldIsElsewhere(s, c);
    FailKeepsHands(s, c, error);
    assert forall x :: x in s'.dlq <==> x in s.dlq || x == id;
    assert forall x :: x in s.messages ==> (InQueue(s', x) <==> InQueue(s, x));
  }

  lemma DeadLetterKeepsInv(s: State, c: nat, error: string)
    requires Inv(s) && Holds(s, c) && s.messages[s.consumers[c].hand.value].attempts + 1 >= 3
    ensures Inv(AfterFail(s, c, error))
  {
    HeldIsElsewhere(s, c);
    FailKeepsHands(s, c, error);
    DeadLetterKeepsPlaces(s, c, error);
  }

  lemma FailKeepsInv(s: State, c: nat, error: string)
    requires Inv(s) && Holds(s, c)
    ensures Inv(AfterFail(s, c, error))
  {
    if s.messages[s.consumers[c].hand.value].attempts + 1 < 3 {
      RequeueKeepsInv(s, c, error);
    } else {
      DeadLetterKeepsInv(s, c, error);
    }
  }

  lemma StepKeepsInv(s: State, e: Event)
    requires Inv(s)
    ensures Inv(Step(s, e))
  {
    if Enabled(s, e) {
      match e
      case Publish(stream, data) => PublishKeepsInv(s, stream, data);
      case Subscribe(stream, group) => SubscribeKeepsInv(s, stream, group);
      case Deliver(c) => DeliverKeepsInv(s, c);
      case Succeed(c) => SucceedKeepsInv(s, c);
      case Fail(c, error) => FailKeepsInv(s, c, error);
      case Cancel(c) => CancelKeepsInv(s, c);
    }
  }

  lemma {:induction false} RunKeepsInv(h: seq<Event>)
    ensures Inv(Run(h))
  {
    if h != [] {
      RunKeepsInv(h[..|h| - 1]);
      StepKeepsInv(Run(h[..|h| - 1]), h[|h| - 1]);
    }
  }

  function Count<T>(pick: T -> bool, s: seq<T>): nat {
    |Filter(pick, s)|
  }

  function Is(id: nat): nat -> bool {
    x => x == id
  }

  function Holding(id: nat, running: bool): Consumer -> bool {
    (c: Consumer) => c.hand == Some(id) && c.running == running
  }

  lemma {:induction false} CountOnce(s: seq<nat>, id: nat)
    requires NoRepeats(s)
    ensures Count(Is(id), s) == if id in s then 1 else 0
  {
    if s != [] {
      var p := s[..|s| - 1];
      CountOnce(p, id);
      assert s == p + [s[|s| - 1]];
    }
  }

  lemma {:induction false} CountHands(consumers: seq<Consumer>, id: nat)
    requires forall c, d :: 0 <= c < d < |consumers| && consumers[c].hand.Some? ==>
             consumers[c].hand != consumers[d].hand
    ensures Count(Holding(id, true), consumers) + Count(Holding(id, false), consumers) ==
            if exists c :: 0 <= c < |consumers| && consumers[c].hand == Some(id) then 1 else 0
  {
    if consumers != [] {
      var p, me := consumers[..|consumers| - 1], consumers[|consumers| - 1];
      CountHands(p, id);
      if me.hand == Some(id) {
        assert consumers[|consumers| - 1].hand == Some(id);
        assert !exists c :: 0 <= c < |p| && p[c].hand == Some(id) by {
          assert forall c :: 0 <= c < |p| ==> p[c] == consumers[c];
        }
      } else if c :| 0 <= c < |consumers| && consumers[c].hand == Some(id) {
        assert p[c].hand == Some(id);
      }
    }
  }

  /** Each message put on a durable stream is in exactly one place, once: the queue of its
      stream, the hands of one running consumer, completed, the dead-letter list, or
      abandoned in the hands of a cancelled consumer. */
  lemma Conservation(h: seq<Event>, id: nat)
    requires id in Run(h).messages
    ensures var s := Run(h);
            && Count(Is(id), QueueOf(s, s.messages[id].stream))
               + Count(Holding(id, true), s.consumers)
               + (if id in s.completed then 1 else 0)
               + Count(Is(id), s.dlq)
               + Count(Holding(id, false), s.consumers) == 1
            && forall st :: st != s.messages[id].stream ==> id !in QueueOf(s, st)
  {
    RunKeepsInv(h);
    var s := Run(h);
    if s.messages[id].stream in s.queues {
      CountOnce(s.queues[s.messages[id].stream], id);
    }
    CountOnce(s.dlq, id);
    CountHands(s.consumers, id);
  }

  // ---------------------------------------------------------------------------
  // Bounded redelivery

  /** The event takes message `id` from its queue into a consumer's hand. */
  predicate Takes(s: State, e: Event, id: nat) {
    e.Deliver? && Enabled(s, e) && QueueOf(s, s.consumers[e.consumer].stream)[0] == id
  }

  predicate EndsWith(s: State, e: Event, id: nat) {
    (e.Fail? || e.Succeed?) && Enabled(s, e) && s.consumers[e.consumer].hand == Some(id)
  }

  /** How often `id` was delivered, and how many of its deliveries failed. */
  function Deliveries(h: seq<Event>, id: nat): nat {
    if h == [] then 0
    else
      var p := h[..|h| - 1];
      Deliveries(p, id) + (if Takes(Run(p), h[|h| - 1], id) then 1 else 0)
  }

  function Failures(h: seq<Event>, id: nat): nat {
    if h == [] then 0
    else
      var p := h[..|h| - 1];
      Failures(p, id) + (if h[|h| - 1].Fail? && EndsWith(Run(p), h[|h| - 1], id) then 1 else 0)
  }

  /** The tally of one message: failures, and deliveries, as its state shows them. */
  ghost predicate Tallied(s: State, id: nat, deliveries: nat, failures: nat) {
    if id !in s.messages then deliveries == 0 && failures == 0
    else
      && s.messages[id].attempts == failures
      && deliveries == failures + (if InHand(s, id) || id in s.completed then 1 else 0)
  }

  lemma TallyDeliver(s: State, c: nat, id: nat, d: nat, f: nat)
    requires Inv(s) && Enabled(s, Deliver(c)) && Tallied(s, id, d, f)
    ensures Tallied(AfterDeliver(s, c), id, d + (if Takes(s, Deliver(c), id) then 1 else 0), f)
  {
    HeadIsLive(s, c);
    HandChanged(s, AfterDeliver(s, c), c);
  }

  lemma TallySucceed(s: State, c: nat, id: nat, d: nat, f: nat)
    requires Inv(s) && Holds(s, c) && Tallied(s, id, d, f)
    ensures Tallied(AfterSucceed(s, c), id, d, f)
  {
    HeldIsElsewhere(s, c);
    HandChanged(s, AfterSucceed(s, c), c);
  }

  lemma TallyFail(s: State, c: nat, error: string, id: nat, d: nat, f: nat)
    requires Inv(s) && Holds(s, c) && Tallied(s, id, d, f)
    ensures Tallied(AfterFail(s, c, error), id, d, f + (if s.consumers[c].hand == Some(id) then 1 else 0))
  {
    var s' := AfterFail(s, c, error);
    HeldIsElsewhere(s, c);
    HandChanged(s, s', c);
    assert !InHand(s', s.consumers[c].hand.value);
  }

  lemma TallyStep(s: State, e: Event, id: nat, d: nat, f: nat)
    requires Inv(s) && Enabled(s, e) && Tallied(s, id, d, f)
    ensures Tallied(Step(s, e), id, d + (if Takes(s, e, id) then 1 else 0),
            f + (if e.Fail? && EndsWith(s, e, id) then 1 else 0))
  {
    match e
    case Publish(_, _) => HandsOnly(s, Step(s, e));
    case Subscribe(stream, group) => SubscribeKeepsHands(s, stream, group);
    case Deliver(c) => TallyDeliver(s, c, id, d, f);
    case Succeed(c) => TallySucceed(s, c, id, d, f);
    case Fail(c, error) => TallyFail(s, c, error, id, d, f);
    case Cancel(c) => HandsOnly(s, Step(s, e));
  }

  lemma {:induction false} TallyOf(h: seq<Event>, id: nat)
    ensures Tallied(Run(h), id, Deliveries(h, id), Failures(h, id))
  {
    if h != [] {
      var p, e := h[..|h| - 1], h[|h| - 1];
      TallyOf(p, id);
      RunKeepsInv(p);
      if Enabled(Run(p), e) {
        TallyStep(Run(p), e, id, Deliveries(p, id), Failures(p, id));
      }
    }
  }

  /** A message is delivered at most three times; it is dead-lettered exactly when its third
      delivery has failed; a completed one was delivered once more than it failed. */
  lemma BoundedRedelivery(h: seq<Event>, id: nat)
    requires id in Run(h).messages
    ensures Deliveries(h, id) <= 3
    ensures id in Run(h).dlq <==> Failures(h, id) == 3
    ensures id in Run(h).dlq ==> Deliveries(h, id) == 3
    ensures id in Run(h).completed ==> Deliveries(h, id) == Failures(h, id) + 1
  {
    TallyOf(h, id);
    RunKeepsInv(h);
  }

  lemma RunSnoc(h: seq<Event>, e: Event)
    ensures Run(h + [e]) == Step(Run(h), e)
    ensures forall id: nat :: Deliveries(h + [e], id) == Deliveries(h, id) + (if Takes(Run(h), e, id) then 1 else 0)
  {
    assert (h + [e])[..|h|] == h;
  }

  lemma SettledStays(s: State, e: Event, id: nat)
    requires Inv(s) && (id in s.completed || id in s.dlq)
    ensures !Takes(s, e, id)
    ensures id in s.completed ==> id in Step(s, e).completed
    ensures id in s.dlq ==> id in Step(s, e).dlq
  {
    if e.Deliver? && Enabled(s, e) {
      HeadIsLive(s, e.consumer);
      assert InQueue(s, QueueOf(s, s.consumers[e.consumer].stream)[0]);
    }
    if e.Succeed? && Enabled(s, e) {
      SucceedKeepsInv(s, e.consumer);
    }
  }

  /** Once completed or dead-lettered, a message is never delivered again. */
  lemma {:induction false} NeverDeliveredAgain(h: seq<Event>, g: seq<Event>, id: nat)
    requires id in Run(h).completed || id in Run(h).dlq
    ensures Deliveries(h + g, id) == Deliveries(h, id)
    ensures id in Run(h).completed ==> id in Run(h + g).completed
    ensures id in Run(h).dlq ==> id in Run(h + g).dlq
    decreases |g|
  {
    if g == [] {
      assert h + g == h;
    } else {
      var q, e := g[..|g| - 1], g[|g| - 1];
      assert h + g == h + q + [e];
      NeverDeliveredAgain(h, q, id);
      RunKeepsInv(h + q);
      RunSnoc(h + q, e);
      SettledStays(Run(h + q), e, id);
    }
  }

  lemma StepKeepsPayload(s: State, e: Event, id: nat)
    requires Inv(s) && id in s.messages
    ensures id in Step(s, e).messages
    ensures Step(s, e).messages[id].data == s.messages[id].data
            && Step(s, e).messages[id].stream == s.messages[id].stream
  {
  }

  /** A message keeps its stream and its payload, whatever happens to it. */
  lemma {:induction false} PayloadIsKept(h: seq<Event>, g: seq<Event>, id: nat)
    requires id in Run(h).messages
    ensures id in Run(h + g).messages
    ensures Run(h + g).messages[id].data == Run(h).messages[id].data
    ensures Run(h + g).messages[id].stream == Run(h).messages[id].stream
    decreases |g|
  {
    if g == [] {
      assert h + g == h;
    } else {
      var q, e := g[..|g| - 1], g[|g| - 1];
      assert h + g == h + q + [e];
      PayloadIsKept(h, q, id);
      RunKeepsInv(h + q);
      RunSnoc(h + q, e);
      StepKeepsPayload(Run(h + q), e, id);
    }
  }

  /** `del self._pending[message.id]` always finds its key. */
  lemma PendingDeletionNeverMisses(h: seq<Event>, c: nat)
    requires Holds(Run(h), c)
    ensures Run(h).consumers[c].hand.value in Run(h).pending
  {
    RunKeepsInv(h);
  }

  // ---------------------------------------------------------------------------
  // First deliveries happen in publish order

  /** The ids enqueued on a stream, in order. */
  function Enqueued(h: seq<Event>, stream: string): seq<nat> {
    if h == [] then []
    else
      var p, e := h[..|h| - 1], h[|h| - 1];
      Enqueued(p, stream) +
      (if e.Publish? && e.stream == stream && stream in Run(p).queues then [Run(p).counter + 1] else [])
  }

  /** The ids of a stream in the order of their first delivery. */
  function FirstDelivered(h: seq<Event>, stream: string): seq<nat> {
    if h == [] then []
    else
      var p, e := h[..|h| - 1], h[|h| - 1];
      var s := Run(p);
      FirstDelivered(p, stream) +
      (if e.Deliver? && Enabled(s, e) && s.consumers[e.consumer].stream == stream &&
          Deliveries(p, s.queues[stream][0]) == 0
       then [s.queues[stream][0]] else [])
  }

  function Fresh(s: State): nat -> bool {
    id => id in s.messages && s.messages[id].attempts == 0
  }

  /** The still undelivered messages of a queue. */
  function FreshIn(s: State, stream: string): seq<nat> {
    Filter(Fresh(s), QueueOf(s, stream))
  }

  lemma FreshSingle(s: State, id: nat)
    ensures Filter(Fresh(s), [id]) == if Fresh(s)(id) then [id] else []
  {
    assert [id][..0] == [];
  }

  lemma FreshAfterPublish(s: State, st: string, data: string, stream: string)
    requires Inv(s)
    ensures FreshIn(AfterPublish(s, st, data), stream) ==
            FreshIn(s, stream) + (if st == stream && st in s.queues then [s.counter + 1] else [])
  {
    var s', q := AfterPublish(s, st, data), QueueOf(s, stream);
    FilterSame(Fresh(s'), Fresh(s), q);
    if st == stream && st in s.queues {
      FilterAppend(Fresh(s'), q, [s.counter + 1]);
      FreshSingle(s', s.counter + 1);
    }
  }

  lemma FreshAfterDeliver(s: State, c: nat, stream: string)
    requires Inv(s) && Enabled(s, Deliver(c))
    ensures FreshIn(s, stream) ==
            (if s.consumers[c].stream == stream && s.messages[s.queues[stream][0]].attempts == 0
             then [s.queues[stream][0]] else []) + FreshIn(AfterDeliver(s, c), stream)
  {
    var s', q := AfterDeliver(s, c), QueueOf(s, stream);
    HeadIsLive(s, c);
    FilterSame(Fresh(s'), Fresh(s), q);
    if s.consumers[c].stream == stream {
      assert q == [q[0]] + q[1..];
      FilterAppend(Fresh(s'), [q[0]], q[1..]);
      FreshSingle(s', q[0]);
    }
  }

  lemma FreshAfterSucceed(s: State, c: nat, stream: string)
    requires Inv(s) && Holds(s, c)
    ensures FreshIn(AfterSucceed(s, c), stream) == FreshIn(s, stream)
  {
    FilterSame(Fresh(AfterSucceed(s, c)), Fresh(s), QueueOf(s, stream));
  }

  lemma FreshAfterFail(s: State, c: nat, error: string, stream: string)
    requires Inv(s) && Holds(s, c)
    ensures FreshIn(AfterFail(s, c, error), stream) == FreshIn(s, stream)
  {
    var s', id, q := AfterFail(s, c, error), s.consumers[c].hand.value, QueueOf(s, stream);
    HeldIsElsewhere(s, c);
    assert id !in q;
    FilterSame(Fresh(s'), Fresh(s), q);
    FilterAppend(Fresh(s'), q, [id]);
    FreshSingle(s', id);
  }

  /** What an event puts at the tail of the publish order, and takes off its front. */
  function Put(s: State, e: Event, stream: string): seq<nat> {
    if e.Publish? && e.stream == stream && stream in s.queues then [s.counter + 1] else []
  }

  function Took(s: State, e: Event, stream: string): seq<nat> {
    if e.Deliver? && Enabled(s, e) && s.consumers[e.consumer].stream == stream && Fresh(s)(s.queues[stream][0])
    then [s.queues[stream][0]] else []
  }

  lemma FreshPublishStep(s: State, e: Event, stream: string)
    requires Inv(s) && e.Publish?
    ensures FreshIn(s, stream) + Put(s, e, stream) == Took(s, e, stream) + FreshIn(Step(s, e), stream)
  {
    FreshAfterPublish(s, e.stream, e.data, stream);
    Balance(FreshIn(s, stream), Put(s, e, stream), Took(s, e, stream), FreshIn(Step(s, e), stream));
  }

  lemma FreshDeliverStep(s: State, e: Event, stream: string)
    requires Inv(s) && e.Deliver? && Enabled(s, e)
    ensures FreshIn(s, stream) + Put(s, e, stream) == Took(s, e, stream) + FreshIn(Step(s, e), stream)
  {
    FreshAfterDeliver(s, e.consumer, stream);
    HeadIsLive(s, e.consumer);
    Balance(FreshIn(s, stream), Put(s, e, stream), Took(s, e, stream), FreshIn(Step(s, e), stream));
  }

  lemma FreshStep(s: State, e: Event, stream: string)
    requires Inv(s)
    ensures FreshIn(s, stream) + Put(s, e, stream) == Took(s, e, stream) + FreshIn(Step(s, e), stream)
  {
    if e.Publish? {
      FreshPublishStep(s, e, stream);
    } else if e.Deliver? && Enabled(s, e) {
      FreshDeliverStep(s, e, stream);
    } else {
      if Enabled(s, e) {
        FreshElsewhere(s, e, stream);
      }
      Balance(FreshIn(s, stream), Put(s, e, stream), Took(s, e, stream), FreshIn(Step(s, e), stream));
    }
  }

  lemma Balance(before: seq<nat>, put: seq<nat>, took: seq<nat>, after: seq<nat>)
    requires (took == [] && after == before + put) || (put == [] && before == took + after) ||
             (put == took == [] && before == after)
    ensures before + put == took + after
  {
    NothingMoves(before);
    NothingMoves(after);
  }

  lemma NothingMoves(a: seq<nat>)
    ensures a + [] == a == [] + a
  {
  }

  lemma FreshElsewhere(s: State, e: Event, stream: string)
    requires Inv(s) && Enabled(s, e) && !e.Publish? && !e.Deliver?
    ensures FreshIn(Step(s, e), stream) == FreshIn(s, stream)
  {
    match e
    case Subscribe(st, group) => FreshUnchanged(s, AfterSubscribe(s, st, group), stream);
    case Cancel(c) => FreshUnchanged(s, AfterCancel(s, c), stream);
    case Succeed(c) => FreshAfterSucceed(s, c, stream);
    case Fail(c, error) => FreshAfterFail(s, c, error, stream);
  }

  lemma FreshUnchanged(s: State, s': State, stream: string)
    requires s'.messages == s.messages && QueueOf(s', stream) == QueueOf(s, stream)
    ensures FreshIn(s', stream) == FreshIn(s, stream)
  {
    FilterSame(Fresh(s'), Fresh(s), QueueOf(s, stream));
  }

  lemma Regroup(a: seq<nat>, b: seq<nat>, put: seq<nat>, took: seq<nat>, rest: seq<nat>)
    requires b + put == took + rest
    ensures (a + b) + put == (a + took) + rest
  {
    assert (a + b) + put == a + (b + put);
    assert (a + took) + rest == a + (took + rest);
  }

  lemma TookIsFirstDelivery(p: seq<Event>, e: Event, stream: string)
    ensures FirstDelivered(p + [e], stream) == FirstDelivered(p, stream) + Took(Run(p), e, stream)
    ensures Enqueued(p + [e], stream) == Enqueued(p, stream) + Put(Run(p), e, stream)
  {
    assert (p + [e])[..|p|] == p;
    RunKeepsInv(p);
    if e.Deliver? && Enabled(Run(p), e) && Run(p).consumers[e.consumer].stream == stream {
      HeadIsLive(Run(p), e.consumer);
      TallyOf(p, Run(p).queues[stream][0]);
    }
  }

  /** At every moment the publish order of a stream is its first-delivery order followed by
      the still undelivered messages of its queue, whatever was requeued at the tail. */
  lemma {:induction false} FirstDeliveriesInOrder(h: seq<Event>, stream: string)
    ensures Enqueued(h, stream) == FirstDelivered(h, stream) + FreshIn(Run(h), stream)
  {
    if h != [] {
      var p, e := h[..|h| - 1], h[|h| - 1];
      assert h == p + [e];
      FirstDeliveriesInOrder(p, stream);
      RunKeepsInv(p);
      FreshStep(Run(p), e, stream);
      TookIsFirstDelivery(p, e, stream);
      Regroup(FirstDelivered(p, stream), FreshIn(Run(p), stream), Put(Run(p), e, stream),
              Took(Run(p), e, stream), FreshIn(Step(Run(p), e), stream));
    }
  }

  lemma {:induction false} EnqueuedIncreases(h: seq<Event>, stream: string)
    ensures forall i, j :: 0 <= i < j < |Enqueued(h, stream)| ==> Enqueued(h, stream)[i] < Enqueued(h, stream)[j]
    ensures forall i :: 0 <= i < |Enqueued(h, stream)| ==> Enqueued(h, stream)[i] <= Run(h).counter
  {
    if h != [] {
      EnqueuedIncreases(h[..|h| - 1], stream);
      CounterGrows(Run(h[..|h| - 1]), h[|h| - 1]);
    }
  }

  lemma CounterGrows(s: State, e: Event)
    ensures Step(s, e).counter == s.counter + (if e.Publish? then 1 else 0)
  {
  }

  // ---------------------------------------------------------------------------
  // Draining

  /** The work a message can still cause: a delivery and an outcome per remaining attempt. */
  ghost function Weight(s: State, id: nat): nat {
    if id !in s.messages || s.messages[id].attempts >= 3 then 0
    else if InQueue(s, id) then 2 * (3 - s.messages[id].attempts)
    else if HeldRunning(s, id) then 2 * (3 - s.messages[id].attempts) - 1
    else 0
  }

  ghost function Work(s: State, n: nat): nat {
    if n == 0 then 0 else Work(s, n - 1) + Weight(s, n)
  }

  /** Deliveries, outcomes, and cancellations of a consumer that holds a message. */
  predicate IsWork(s: State, e: Event) {
    Enabled(s, e) &&
    (e.Deliver? || e.Succeed? || e.Fail? || (e.Cancel? && s.consumers[e.consumer].hand.Some?))
  }

  function WorkDone(s: State, g: seq<Event>): nat {
    if g == [] then 0
    else WorkDone(s, g[..|g| - 1]) + (if IsWork(RunFrom(s, g[..|g| - 1]), g[|g| - 1]) then 1 else 0)
  }

  function RunFrom(s: State, g: seq<Event>): State {
    if g == [] then s else Step(RunFrom(s, g[..|g| - 1]), g[|g| - 1])
  }

  /** The message a work event is about. */
  function Subject(s: State, e: Event): nat
    requires IsWork(s, e) && Inv(s)
  {
    if e.Deliver? then QueueOf(s, s.consumers[e.consumer].stream)[0] else s.consumers[e.consumer].hand.value
  }

  ghost predicate HeldRunning(s: State, id: nat) {
    exists c :: 0 <= c < |s.consumers| && s.consumers[c].running && s.consumers[c].hand == Some(id)
  }

  lemma SameHolders(s: State, s': State, c: nat, id: nat)
    requires c < |s.consumers| == |s'.consumers|
    requires forall d :: 0 <= d < |s.consumers| && d != c ==> s'.consumers[d] == s.consumers[d]
    requires s.consumers[c].hand != Some(id) && s'.consumers[c].hand != Some(id)
    ensures HeldRunning(s', id) <==> HeldRunning(s, id)
  {
    if d :| 0 <= d < |s.consumers| && s.consumers[d].running && s.consumers[d].hand == Some(id) {
      assert s'.consumers[d].hand == Some(id);
    }
    if d :| 0 <= d < |s'.consumers| && s'.consumers[d].running && s'.consumers[d].hand == Some(id) {
      assert s.consumers[d].hand == Some(id);
    }
  }

  lemma DeliverIsOnOneMessage(s: State, c: nat, id: nat)
    requires Inv(s) && Enabled(s, Deliver(c)) && id != QueueOf(s, s.consumers[c].stream)[0]
    ensures Weight(AfterDeliver(s, c), id) == Weight(s, id)
  {
    HeadIsLive(s, c);
    SameHolders(s, AfterDeliver(s, c), c, id);
  }

  lemma SucceedIsOnOneMessage(s: State, c: nat, id: nat)
    requires Inv(s) && Holds(s, c) && s.consumers[c].hand != Some(id)
    ensures Weight(AfterSucceed(s, c), id) == Weight(s, id)
  {
    SameHolders(s, AfterSucceed(s, c), c, id);
  }

  lemma FailIsOnOneMessage(s: State, c: nat, error: string, id: nat)
    requires Inv(s) && Holds(s, c) && s.consumers[c].hand != Some(id)
    ensures Weight(AfterFail(s, c, error), id) == Weight(s, id)
  {
    HeldIsElsewhere(s, c);
    SameHolders(s, AfterFail(s, c, error), c, id);
  }

  /** A work event takes at least one unit of weight off its message and touches no other. */
  lemma WorkIsOnOneMessage(s: State, e: Event, id: nat)
    requires Inv(s) && IsWork(s, e) && id != Subject(s, e)
    ensures Weight(Step(s, e), id) == Weight(s, id)
  {
    match e
    case Deliver(c) => DeliverIsOnOneMessage(s, c, id);
    case Succeed(c) => SucceedIsOnOneMessage(s, c, id);
    case Fail(c, error) => FailIsOnOneMessage(s, c, error, id);
    case Cancel(c) => SameHolders(s, Step(s, e), c, id);
  }

  lemma WorkTakesWeight(s: State, e: Event)
    requires Inv(s) && IsWork(s, e)
    ensures var id := Subject(s, e);
            1 <= id <= s.counter && Weight(Step(s, e), id) < Weight(s, id)
  {
    var c := e.consumer;
    match e
    case Deliver(_) => DeliverTakesWeight(s, c);
    case Succeed(_) => SucceedTakesWeight(s, c);
    case Fail(_, error) => FailTakesWeight(s, c, error);
    case Cancel(_) =>
      CancelKeepsInv(s, c);
      SettlesOrLeaves(s, Step(s, e), c, Subject(s, e));
  }

  lemma DeliverTakesWeight(s: State, c: nat)
    requires Inv(s) && Enabled(s, Deliver(c))
    ensures var id := QueueOf(s, s.consumers[c].stream)[0];
            1 <= id <= s.counter && Weight(AfterDeliver(s, c), id) < Weight(s, id)
  {
    var id := QueueOf(s, s.consumers[c].stream)[0];
    HeadIsLive(s, c);
    assert InQueue(s, id) && !InQueue(AfterDeliver(s, c), id);
  }

  lemma SucceedTakesWeight(s: State, c: nat)
    requires Inv(s) && Holds(s, c)
    ensures var id := s.consumers[c].hand.value;
            1 <= id <= s.counter && Weight(AfterSucceed(s, c), id) < Weight(s, id)
  {
    SucceedKeepsInv(s, c);
    SettlesOrLeaves(s, AfterSucceed(s, c), c, s.consumers[c].hand.value);
  }

  lemma FailTakesWeight(s: State, c: nat, error: string)
    requires Inv(s) && Holds(s, c)
    ensures var id := s.consumers[c].hand.value;
            1 <= id <= s.counter && Weight(AfterFail(s, c, error), id) < Weight(s, id)
  {
    FailKeepsInv(s, c, error);
    SettlesOrLeaves(s, AfterFail(s, c, error), c, s.consumers[c].hand.value);
  }

  /** A held message weighs as its running holder says, and once that holder lets go or is
      cancelled no running consumer holds it. */
  lemma SettlesOrLeaves(s: State, s': State, c: nat, id: nat)
    requires Inv(s) && Inv(s') && Holds(s, c) && s.consumers[c].hand == Some(id) && |s'.consumers| == |s.consumers|
    requires forall d :: 0 <= d < |s.consumers| && d != c ==> s'.consumers[d] == s.consumers[d]
    requires s'.consumers[c].hand == None || !s'.consumers[c].running
    ensures 1 <= id <= s.counter && s.messages[id].attempts < 3
    ensures Weight(s, id) == 2 * (3 - s.messages[id].attempts) - 1
    ensures !HeldRunning(s', id)
  {
    HeldIsElsewhere(s, c);
    assert !InQueue(s, id);
    assert HeldRunning(s, id);
  }

  lemma {:induction false} SumDrops(s: State, s': State, n: nat, id: nat)
    requires forall x: nat :: x != id ==> Weight(s', x) == Weight(s, x)
    requires Weight(s', id) < Weight(s, id)
    ensures Work(s', n) <= Work(s, n) && (1 <= id <= n ==> Work(s', n) < Work(s, n))
  {
    if n > 0 {
      SumDrops(s, s', n - 1, id);
    }
  }

  lemma {:induction false} SumSame(s: State, s': State, n: nat)
    requires forall x: nat :: Weight(s', x) == Weight(s, x)
    ensures Work(s', n) == Work(s, n)
  {
    if n > 0 {
      SumSame(s, s', n - 1);
    }
  }

  lemma IdleStepKeepsWeight(s: State, e: Event, id: nat)
    requires Inv(s) && !e.Publish? && !IsWork(s, e)
    ensures Weight(Step(s, e), id) == Weight(s, id)
  {
    var s' := Step(s, e);
    if Enabled(s, e) {
      if e.Cancel? {
        SameHolders(s, s', e.consumer, id);
      } else {
        assert e.Subscribe?;
        if d :| 0 <= d < |s.consumers| && s.consumers[d].running && s.consumers[d].hand == Some(id) {
          assert s'.consumers[d].hand == Some(id);
        }
        if d :| 0 <= d < |s'.consumers| && s'.consumers[d].running && s'.consumers[d].hand == Some(id) {
          assert s.consumers[d].hand == Some(id);
        }
      }
    }
  }

  /** Once publishing has stopped, every delivery, outcome and cancellation of a busy
      consumer uses up work, so at most `Work` of them can follow. */
  lemma {:induction false} Drains(s: State, g: seq<Event>)
    requires Inv(s) && forall i :: 0 <= i < |g| ==> !g[i].Publish?
    ensures Inv(RunFrom(s, g)) && RunFrom(s, g).counter == s.counter
    ensures WorkDone(s, g) + Work(RunFrom(s, g), s.counter) <= Work(s, s.counter)
  {
    if g != [] {
      var p, e := g[..|g| - 1], g[|g| - 1];
      var t := RunFrom(s, p);
      Drains(s, p);
      StepKeepsInv(t, e);
      CounterGrows(t, e);
      if IsWork(t, e) {
        WorkTakesWeight(t, e);
        forall x: nat | x != Subject(t, e)
          ensures Weight(Step(t, e), x) == Weight(t, x)
        {
          WorkIsOnOneMessage(t, e, x);
        }
        SumDrops(t, Step(t, e), s.counter, Subject(t, e));
      } else {
        forall x: nat
          ensures Weight(Step(t, e), x) == Weight(t, x)
        {
          IdleStepKeepsWeight(t, e, x);
        }
        SumSame(t, Step(t, e), s.counter);
      }
    }
  }

  /** Three deliveries and three outcomes per message is all there can ever be. */
  lemma {:induction false} WorkIsBounded(s: State, n: nat)
    ensures Work(s, n) <= 6 * n
  {
    if n > 0 {
      WorkIsBounded(s, n - 1);
    }
  }

  /** A broker in which no work is left to do, and every stream with queued messages has a
      running consumer, has nothing live: every message is completed, dead, or abandoned. */
  lemma QuietIsDrained(h: seq<Event>)
    requires forall e :: !IsWork(Run(h), e)
    requires forall st :: QueueOf(Run(h), st) != [] ==>
               exists c :: 0 <= c < |Run(h).consumers| && Run(h).consumers[c].running
                 && Run(h).consumers[c].stream == st
    ensures var s := Run(h);
            && (forall st :: QueueOf(s, st) == [])
            && forall id :: id in s.messages ==>
                 id in s.completed || id in s.dlq || (InHand(s, id) && !HeldRunning(s, id))
  {
    var s := Run(h);
    RunKeepsInv(h);
    forall c: nat | c < |s.consumers| && s.consumers[c].running
      ensures s.consumers[c].hand == None
    {
      assert !IsWork(s, Succeed(c));
    }
    forall st
      ensures QueueOf(s, st) == []
    {
      if QueueOf(s, st) != [] {
        var c :| 0 <= c < |s.consumers| && s.consumers[c].running && s.consumers[c].stream == st;
        assert IsWork(s, Deliver(c));
      }
    }
  }
}
