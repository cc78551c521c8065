/** What the consumers of the durable broker are handed: the data that was published, in the order
    in which it was published, by queues that are first in, first out; and what a message and a
    consumer say about themselves. */
module DurableBrokerReceipts {
  import opened Prelude
  import opened DurableBroker

  /** A queue is first in, first out: a publication and a retry go to its tail, a delivery takes
      its head, and nothing else touches it. */
  lemma FifoExactly(s: State, e: Event, stream: string)
    requires Inv(s) && Enabled(s, e)
    ensures var q, after := QueueOf(s, stream), QueueOf(Step(s, e), stream);
            match e
            case Publish(st, _) => after == if st == stream && st in s.queues then q + [s.counter + 1] else q
            case Deliver(c) =>
              if s.consumers[c].stream == stream then q != [] && after == q[1..] else after == q
            case Fail(c, _) =>
              var id := s.consumers[c].hand.value;
              after == if s.consumers[c].stream == stream && s.messages[id].attempts < 2 then q + [id] else q
            case _ => after == q
  {
    if e.Fail? || e.Succeed? {
      HeldIsElsewhere(s, e.consumer);
    }
  }

  // ---------------------------------------------------------------------------
  // Consumers receive what was published

  /** The number of a message and its data. */
  datatype Parcel = Parcel(id: nat, data: string)

  /** The ids enqueued on a stream, each with the data it was published with, in order. */
  function Published(h: seq<Event>, stream: string): seq<Parcel> {
    if h == [] then []
    else
      var p, e := h[..|h| - 1], h[|h| - 1];
      if e.Publish? && e.stream == stream && stream in Run(p).queues
      then Published(p, stream) + [Parcel(Run(p).counter + 1, e.data)]
      else Published(p, stream)
  }

  /** The first deliveries on a stream, each with the data its consumer was handed, in order. */
  function FirstReceived(h: seq<Event>, stream: string): seq<Parcel> {
    if h == [] then []
    else
      var p, e := h[..|h| - 1], h[|h| - 1];
      var s := Run(p);
      if e.Deliver? && Enabled(s, e) && s.consumers[e.consumer].stream == stream &&
         Deliveries(p, s.queues[stream][0]) == 0
      then FirstReceived(p, stream) + WithData(Run(h), [s.queues[stream][0]])
      else FirstReceived(p, stream)
  }

  /** Ids with the data that is stored for them. */
  function WithData(s: State, ids: seq<nat>): seq<Parcel> {
    seq(|ids|, i requires 0 <= i < |ids| =>
      Parcel(ids[i], if ids[i] in s.messages then s.messages[ids[i]].data else ""))
  }

  lemma WithDataAppend(s: State, a: seq<nat>, b: seq<nat>)
    ensures WithData(s, a + b) == WithData(s, a) + WithData(s, b)
  {
  }

  lemma WithDataKept(s: State, e: Event, ids: seq<nat>)
    requires Inv(s) && forall i :: 0 <= i < |ids| ==> ids[i] in s.messages
    ensures WithData(Step(s, e), ids) == WithData(s, ids)
    ensures forall i :: 0 <= i < |ids| ==> ids[i] in Step(s, e).messages
  {
    forall i | 0 <= i < |ids|
      ensures ids[i] in Step(s, e).messages && Step(s, e).messages[ids[i]].data == s.messages[ids[i]].data
    {
      StepKeepsPayload(s, e, ids[i]);
    }
  }

  /** A message published on a stream that has had a subscriber is stored with its data and
      stream, in every continuation. */
  lemma PublishedIsStored(h: seq<Event>, stream: string, data: string, g: seq<Event>)
    requires stream in Run(h).queues
    ensures var id, t := Run(h).counter + 1, Run(h + [Event.Publish(stream, data)] + g);
            id in t.messages && t.messages[id].data == data && t.messages[id].stream == stream
  {
    RunSnoc(h, Event.Publish(stream, data));
    PayloadIsKept(h + [Event.Publish(stream, data)], g, Run(h).counter + 1);
  }

  lemma {:induction false} PublishedIsEnqueued(h: seq<Event>, stream: string)
    ensures Published(h, stream) == WithData(Run(h), Enqueued(h, stream))
    ensures forall i :: 0 <= i < |Enqueued(h, stream)| ==> Enqueued(h, stream)[i] in Run(h).messages
  {
    if h != [] {
      var p, e := h[..|h| - 1], h[|h| - 1];
      PublishedIsEnqueued(p, stream);
      RunKeepsInv(p);
      WithDataKept(Run(p), e, Enqueued(p, stream));
      if e.Publish? && e.stream == stream && stream in Run(p).queues {
        WithDataAppend(Run(h), Enqueued(p, stream), [Run(p).counter + 1]);
      } else {
        assert Enqueued(h, stream) == Enqueued(p, stream);
      }
    }
  }

  lemma {:induction false} ReceivedIsDelivered(h: seq<Event>, stream: string)
    ensures FirstReceived(h, stream) == WithData(Run(h), FirstDelivered(h, stream))
    ensures forall i :: 0 <= i < |FirstDelivered(h, stream)| ==> FirstDelivered(h, stream)[i] in Run(h).messages
  {
    if h != [] {
      var p, e := h[..|h| - 1], h[|h| - 1];
      var s := Run(p);
      ReceivedIsDelivered(p, stream);
      RunKeepsInv(p);
      WithDataKept(s, e, FirstDelivered(p, stream));
      if e.Deliver? && Enabled(s, e) && s.consumers[e.consumer].stream == stream &&
         Deliveries(p, s.queues[stream][0]) == 0 {
        HeadIsLive(s, e.consumer);
        StepKeepsPayload(s, e, s.queues[stream][0]);
        WithDataAppend(Run(h), FirstDelivered(p, stream), [s.queues[stream][0]]);
      } else {
        assert FirstDelivered(h, stream) == FirstDelivered(p, stream);
      }
    }
  }

  /** In every run: what consumers of a stream were first handed, id and data, followed by what
      still waits undelivered, is exactly what was published on it, in order. */
  lemma ReceivedIsPublished(h: seq<Event>, stream: string)
    ensures Published(h, stream) == FirstReceived(h, stream) + WithData(Run(h), FreshIn(Run(h), stream))
  {
    PublishedIsEnqueued(h, stream);
    ReceivedIsDelivered(h, stream);
    FirstDeliveriesInOrder(h, stream);
    WithDataAppend(Run(h), FirstDelivered(h, stream), FreshIn(Run(h), stream));
  }

  /** A `subscribe` call. */
  datatype Subscription = Subscription(stream: string, group: string)

  /** The streams and groups of the `subscribe` calls, in order. */
  function Subscriptions(h: seq<Event>): seq<Subscription> {
    if h == [] then []
    else
      var p, e := h[..|h| - 1], h[|h| - 1];
      if e.Subscribe? then Subscriptions(p) + [Subscription(e.stream, e.group)] else Subscriptions(p)
  }

  ghost predicate HasStream(calls: seq<Subscription>, stream: string) {
    exists c :: 0 <= c < |calls| && calls[c].stream == stream
  }

  /** There is one consumer for each `subscribe` call, with its stream and group, and a queue for
      exactly the streams subscribed to. */
  ghost predicate Subscribed(s: State, calls: seq<Subscription>) {
    && |s.consumers| == |calls|
    && (forall c :: 0 <= c < |calls| ==>
          s.consumers[c].stream == calls[c].stream && s.consumers[c].group == calls[c].group)
    && (forall stream :: stream in s.queues <==> HasStream(calls, stream))
  }

  lemma StepKeepsConsumers(s: State, e: Event, c: nat)
    requires Inv(s) && !e.Subscribe?
    ensures |Step(s, e).consumers| == |s.consumers| && Step(s, e).queues.Keys == s.queues.Keys
    ensures c < |s.consumers| ==>
              Step(s, e).consumers[c].stream == s.consumers[c].stream &&
              Step(s, e).consumers[c].group == s.consumers[c].group
  {
    if Enabled(s, e) && e.Succeed? {
      HeldIsElsewhere(s, e.consumer);
    } else if Enabled(s, e) && e.Fail? {
      HeldIsElsewhere(s, e.consumer);
    }
  }

  lemma StepKeepsSubscribed(s: State, e: Event, calls: seq<Subscription>)
    requires Inv(s) && Subscribed(s, calls) && !e.Subscribe?
    ensures Subscribed(Step(s, e), calls)
  {
    StepKeepsConsumers(s, e, 0);
    forall c | 0 <= c < |calls|
      ensures Step(s, e).consumers[c].stream == calls[c].stream && Step(s, e).consumers[c].group == calls[c].group
    {
      StepKeepsConsumers(s, e, c);
    }
    assert forall stream :: stream in Step(s, e).queues <==> stream in s.queues.Keys;
  }

  lemma SubscribeIsSubscribed(s: State, stream: string, group: string, calls: seq<Subscription>)
    requires Subscribed(s, calls)
    ensures Subscribed(AfterSubscribe(s, stream, group), calls + [Subscription(stream, group)])
  {
    var after := calls + [Subscription(stream, group)];
    forall x
      ensures HasStream(after, x) <==> x == stream || HasStream(calls, x)
    {
      assert after[|calls|].stream == stream;
      if c :| 0 <= c < |calls| && calls[c].stream == x {
        assert after[c].stream == x;
      }
    }
  }

  lemma {:induction false} ConsumersAreSubscriptions(h: seq<Event>)
    ensures Subscribed(Run(h), Subscriptions(h))
  {
    if h != [] {
      var p, e := h[..|h| - 1], h[|h| - 1];
      ConsumersAreSubscriptions(p);
      RunKeepsInv(p);
      if e.Subscribe? {
        SubscribeIsSubscribed(Run(p), e.stream, e.group, Subscriptions(p));
      } else {
        StepKeepsSubscribed(Run(p), e, Subscriptions(p));
      }
    }
  }

  /** What the last failure of a delivery of `id` said. */
  function LastError(h: seq<Event>, id: nat): Option<string> {
    if h == [] then None
    else
      var p, e := h[..|h| - 1], h[|h| - 1];
      if e.Fail? && EndsWith(Run(p), e, id) then Some(e.error) else LastError(p, id)
  }

  /** A held message is marked as being processed by its consumer's group, and a dead letter
      tells the error of its last, third failure. */
  ghost predicate Marked(s: State, h: seq<Event>) {
    && (forall c :: 0 <= c < |s.consumers| && s.consumers[c].hand.Some? && s.consumers[c].hand.value in s.messages ==>
          && s.messages[s.consumers[c].hand.value].status == Processing
          && s.messages[s.consumers[c].hand.value].group == Some(s.consumers[c].group))
    && (forall id :: id in s.dlq && id in s.messages ==> s.messages[id].error == LastError(h, id))
  }

  lemma StepKeepsMarked(h: seq<Event>, e: Event)
    requires Inv(Run(h)) && Marked(Run(h), h) && Enabled(Run(h), e)
    ensures Marked(Run(h + [e]), h + [e])
  {
    RunSnoc(h, e);
    match e
    case Deliver(c) => DeliverKeepsMarked(h, c);
    case Fail(c, error) => FailKeepsMarked(h, c, error);
    case _ => OthersKeepMarked(h, e);
  }

  lemma DeliverKeepsMarked(h: seq<Event>, c: nat)
    requires Inv(Run(h)) && Marked(Run(h), h) && Enabled(Run(h), Event.Deliver(c))
    ensures Marked(AfterDeliver(Run(h), c), h + [Event.Deliver(c)])
  {
    assert (h + [Event.Deliver(c)])[..|h|] == h;
    HeadIsLive(Run(h), c);
  }

  lemma OthersKeepMarked(h: seq<Event>, e: Event)
    requires Inv(Run(h)) && Marked(Run(h), h) && Enabled(Run(h), e) && !e.Deliver? && !e.Fail?
    ensures Marked(Step(Run(h), e), h + [e])
  {
    assert (h + [e])[..|h|] == h;
    if e.Succeed? {
      HeldIsElsewhere(Run(h), e.consumer);
    }
  }

  lemma FailKeepsMarked(h: seq<Event>, c: nat, error: string)
    requires Inv(Run(h)) && Marked(Run(h), h) && Holds(Run(h), c)
    ensures Marked(AfterFail(Run(h), c, error), h + [Event.Fail(c, error)])
  {
    var e := Event.Fail(c, error);
    assert (h + [e])[..|h|] == h;
    HeldIsElsewhere(Run(h), c);
    assert forall id :: id != Run(h).consumers[c].hand.value ==> LastError(h + [e], id) == LastError(h, id);
  }

  lemma {:induction false} MessagesAreMarked(h: seq<Event>)
    ensures Marked(Run(h), h)
  {
    if h != [] {
      var p, e := h[..|h| - 1], h[|h| - 1];
      MessagesAreMarked(p);
      RunKeepsInv(p);
      assert h == p + [e];
      if Enabled(Run(p), e) {
        StepKeepsMarked(p, e);
      }
    }
  }
}
