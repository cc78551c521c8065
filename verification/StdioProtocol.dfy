/** JSON-RPC over a subprocess's standard streams (src/services/mcp/stdio_protocol.py and
    stdio_writer.py): requests are numbered, noise is skipped, and the next message with an
    id is taken as the answer, whatever that id is.

    The server's output is given as the sequence of lines still to be read. */
module StdioProtocol {
  import opened Prelude

  const READ_CAP := 50

  const DEFAULT_CODE := -32603
  const DEFAULT_MESSAGE := "Unknown error"

  /** The `error` member of a message, each part of which may be missing. */
  datatype ErrorBody = ErrorBody(code: Option<int>, message: Option<string>, data: Option<string>)

  /** What a message with an id carries; both members may be missing, or both present. */
  datatype Body = Body(result: Option<string>, error: Option<ErrorBody>)

  /** A line of output, as the reader tells lines apart: blank, not starting with a brace,
      starting with one but not JSON, a JSON object without an id, and one with an id. An
      unreadable line makes reading itself raise: it is not UTF-8, longer than the limit of the
      stream reader (what is left of such a line comes as the next one), or defeats the JSON
      parser by more than its syntax, such as its depth. `Silence` is no line but a pause in which
      the waiting request is given up: reading times out, or the caller cancels the request. */
  datatype Line =
    | Blank
    | Text(text: string)
    | Malformed(text: string)
    | Unreadable
    | Silence
    | Notification(name: string)
    | Reply(id: Option<int>, body: Body)

  datatype Outcome =
    | Returned(value: Option<string>)
    | RequestError(code: int, message: string, data: Option<string>)
    | StreamClosed
    | LineError
    | GivenUp
    | NoMatchingResponse

  /** An error wins over a result. */
  function Deliver(body: Body): Outcome {
    match body.error
    case None => Returned(body.result)
    case Some(e) =>
      RequestError(if e.code.Some? then e.code.value else DEFAULT_CODE,
                   if e.message.Some? then e.message.value else DEFAULT_MESSAGE,
                   e.data)
  }

  /** How a request can end without its answer while the stream goes on. */
  const MISSES := {LineError, GivenUp, NoMatchingResponse}

  predicate IsNoise(l: Line) {
    l.Blank? || l.Text? || l.Malformed?
  }

  /** What `read_line` leaves to look at: the stream from its first line that is no noise. */
  function SkipNoise(stream: seq<Line>): (unread: seq<Line>)
    ensures |unread| <= |stream|
    ensures unread != [] ==> !IsNoise(unread[0])
  {
    if stream != [] && IsNoise(stream[0]) then SkipNoise(stream[1..]) else stream
  }

  /** The read loop of one request, with `budget` objects left to read. */
  function Await(stream: seq<Line>, budget: nat): (Outcome, seq<Line>)
    decreases |stream|
  {
    if budget == 0 then (NoMatchingResponse, stream)
    else
      var s := SkipNoise(stream);
      if s == [] then (StreamClosed, [])
      else if s[0].Notification? then Await(s[1..], budget - 1)
      else if s[0].Unreadable? then (LineError, s[1..])
      else if s[0].Silence? then (GivenUp, s[1..])
      else (Deliver(s[0].body), s[1..])
  }

  datatype Client = Client(requestId: nat, sent: seq<nat>, stream: seq<Line>)

  /** `_send_request`: a fresh id goes out, and one bounded read follows. */
  function Send(c: Client): (Outcome, Client) {
    var (outcome, unread) := Await(c.stream, READ_CAP);
    (outcome, Client(c.requestId + 1, c.sent + [c.requestId + 1], unread))
  }

  class StdioClient {
    var requestId: nat
    var sent: seq<nat>
    var stream: seq<Line>

    ghost function Value(): Client
      reads this
    {
      Client(requestId, sent, stream)
    }

    constructor (output: seq<Line>)
      ensures Value() == Client(0, [], output)
    {
      requestId, sent, stream := 0, [], output;
    }

    method NextId() returns (id: nat)
      modifies `requestId
      ensures id == requestId == old(requestId) + 1
    {
      requestId := requestId + 1;
      id := requestId;
    }

    /** `read_line`: `None` when the stream has ended. An unreadable line is taken off the
        stream before reading raises; a silence takes no line off it. */
    method ReadLine() returns (line: Option<Line>)
      modifies `stream
      ensures var s := SkipNoise(old(stream));
              if s == [] then line == None && stream == []
              else line == Some(s[0]) && stream == s[1..]
    {
      while true
        invariant SkipNoise(stream) == SkipNoise(old(stream))
        decreases |stream|
      {
        if stream == [] {
          return None;
        }
        var l := stream[0];
        stream := stream[1..];
        if !IsNoise(l) {
          return Some(l);
        }
      }
    }

    method SendRequest() returns (outcome: Outcome)
      modifies this
      ensures (outcome, Value()) == Send(old(Value()))
    {
      var id := NextId();
      sent := sent + [id];
      for n := 0 to READ_CAP
        invariant requestId == id && sent == old(sent) + [id]
        invariant Await(stream, READ_CAP - n) == Await(old(stream), READ_CAP)
      {
        var line := ReadLine();
        match line {
          case None => return StreamClosed;
          case Some(Unreadable) => return LineError;
          case Some(Silence) => return GivenUp;
          case Some(Notification(_)) =>
          case Some(Reply(_, body)) => return Deliver(body);
        }
      }
      return NoMatchingResponse;
    }
  }

  // ---------------------------------------------------------------------------
  // Alignment

  /** What the server writes for one request: whatever comes before, then the answer. */
  datatype Exchange = Exchange(before: seq<Line>, id: Option<int>, body: Body) {
    predicate Valid() {
      forall i :: 0 <= i < |before| ==> !before[i].Reply?
    }

    function Output(): seq<Line> {
      before + [Reply(id, body)]
    }

    /** The answer is reached: fewer notifications than the cap, and no line or silence that
        ends the request. */
    predicate Reaches(budget: nat) {
      Notifications(before) < budget && NoneBreaks(before)
    }
  }

  function Notifications(lines: seq<Line>): nat {
    if lines == [] then 0 else (if lines[0].Notification? then 1 else 0) + Notifications(lines[1..])
  }

  predicate NoneBreaks(lines: seq<Line>) {
    forall i :: 0 <= i < |lines| ==> !lines[i].Unreadable? && !lines[i].Silence?
  }

  /** Everything the server writes, exchange after exchange, and then `rest`. */
  function Output(exchanges: seq<Exchange>, rest: seq<Line>): seq<Line> {
    if exchanges == [] then rest else exchanges[0].Output() + Output(exchanges[1..], rest)
  }

  /** `n` requests one after the other: their outcomes, and the client afterwards. */
  function Requests(c: Client, n: nat): (seq<Outcome>, Client) {
    if n == 0 then ([], c)
    else
      var (outcomes, before) := Requests(c, n - 1);
      var (outcome, after) := Send(before);
      (outcomes + [outcome], after)
  }

  function Fresh(stream: seq<Line>): Client {
    Client(0, [], stream)
  }

  /** The server answers the requests once each and in order. */
  ghost predicate Answers(exchanges: seq<Exchange>) {
    forall i :: 0 <= i < |exchanges| ==> exchanges[i].Valid() && exchanges[i].id == Some(i + 1)
  }

  lemma UnbrokenTail(lines: seq<Line>)
    requires lines != []
    ensures NoneBreaks(lines) <==> !lines[0].Unreadable? && !lines[0].Silence? && NoneBreaks(lines[1..])
  {
    if NoneBreaks(lines[1..]) {
      assert forall i :: 0 < i < |lines| ==> lines[i] == lines[1..][i - 1];
    }
  }

  /** One read loop on one exchange: it delivers the answer and leaves what follows exactly
      when the answer is reached, and otherwise ends with an error. */
  lemma {:induction false} AwaitExchange(e: Exchange, rest: seq<Line>, budget: nat)
    requires e.Valid()
    ensures e.Reaches(budget) ==> Await(e.Output() + rest, budget) == (Deliver(e.body), rest)
    ensures !e.Reaches(budget) ==> Await(e.Output() + rest, budget).0 in MISSES
    decreases |e.before|
  {
    var stream := e.Output() + rest;
    if e.before == [] {
      assert stream == [Reply(e.id, e.body)] + rest;
    } else {
      var tail := e.(before := e.before[1..]);
      assert stream[1..] == tail.Output() + rest && stream[0] == e.before[0];
      UnbrokenTail(e.before);
      if budget > 0 {
        if IsNoise(e.before[0]) {
          assert SkipNoise(stream) == SkipNoise(stream[1..]);
          AwaitExchange(tail, rest, budget);
        } else if e.before[0].Notification? {
          AwaitExchange(tail, rest, budget - 1);
        }
      }
    }
  }

  lemma {:induction false} OutputSplit(exchanges: seq<Exchange>, rest: seq<Line>, k: nat)
    requires k <= |exchanges|
    ensures Output(exchanges, rest) == Output(exchanges[..k], Output(exchanges[k..], rest))
  {
    if k > 0 {
      OutputSplit(exchanges[1..], rest, k - 1);
      assert exchanges[1..][..k - 1] == exchanges[..k][1..];
      assert exchanges[1..][k - 1..] == exchanges[k..];
    }
  }

  lemma SendNumbers(c: Client)
    ensures Send(c).1.requestId == c.requestId + 1 && Send(c).1.sent == c.sent + [c.requestId + 1]
  {
  }

  /** The k-th request goes out with the id k, whatever comes back. */
  lemma {:induction false} RequestIds(stream: seq<Line>, n: nat)
    ensures var (outcomes, c) := Requests(Fresh(stream), n);
            && |outcomes| == n && c.requestId == n && |c.sent| == n
            && forall i :: 0 <= i < n ==> c.sent[i] == i + 1
  {
    if n > 0 {
      RequestIds(stream, n - 1);
      var (before, c) := Requests(Fresh(stream), n - 1);
      SendNumbers(c);
    }
  }

  /** The first k requests delivered the first k answers, each the one with the request's own
      id, and the stream stands at the next exchange. */
  ghost predicate AlignedAt(exchanges: seq<Exchange>, rest: seq<Line>, k: nat)
    requires k <= |exchanges|
  {
    var (outcomes, c) := Requests(Fresh(Output(exchanges, rest)), k);
    && |outcomes| == |c.sent| == k && c.stream == Output(exchanges[k..], rest)
    && forall i :: 0 <= i < k ==> outcomes[i] == Deliver(exchanges[i].body) && exchanges[i].id == Some(c.sent[i])
  }

  ghost predicate Aligned(exchanges: seq<Exchange>, rest: seq<Line>) {
    forall k :: 0 <= k <= |exchanges| ==> AlignedAt(exchanges, rest, k)
  }

  /** One more request keeps the alignment exactly when its answer is reached. */
  lemma AlignedNext(exchanges: seq<Exchange>, rest: seq<Line>, k: nat)
    requires Answers(exchanges) && k < |exchanges| && AlignedAt(exchanges, rest, k)
    ensures AlignedAt(exchanges, rest, k + 1) <==> exchanges[k].Reaches(READ_CAP)
  {
    var e, next := exchanges[k], Output(exchanges[k + 1..], rest);
    assert exchanges[k..][0] == e && exchanges[k..][1..] == exchanges[k + 1..];
    AwaitExchange(e, next, READ_CAP);
    RequestIds(Output(exchanges, rest), k + 1);
  }

  lemma {:induction false} RequestsStayAligned(exchanges: seq<Exchange>, rest: seq<Line>, k: nat)
    requires Answers(exchanges) && k <= |exchanges|
    requires forall i :: 0 <= i < k ==> exchanges[i].Reaches(READ_CAP)
    ensures AlignedAt(exchanges, rest, k)
  {
    if k == 0 {
      assert exchanges[0..] == exchanges;
    } else {
      RequestsStayAligned(exchanges, rest, k - 1);
      AlignedNext(exchanges, rest, k - 1);
    }
  }

  /** A server that answers every request once and in order keeps the client aligned exactly
      when each answer is preceded by fewer than 50 notifications, by no unreadable line, and by
      no silence in which its request is given up; other noise never matters. */
  lemma AlignedExactly(exchanges: seq<Exchange>, rest: seq<Line>)
    requires Answers(exchanges)
    ensures Aligned(exchanges, rest) <==>
            forall i :: 0 <= i < |exchanges| ==>
              Notifications(exchanges[i].before) < 50 && NoneBreaks(exchanges[i].before)
  {
    if forall i :: 0 <= i < |exchanges| ==> exchanges[i].Reaches(READ_CAP) {
      forall k | 0 <= k <= |exchanges|
        ensures AlignedAt(exchanges, rest, k)
      {
        RequestsStayAligned(exchanges, rest, k);
      }
    }
    if Aligned(exchanges, rest) {
      forall i | 0 <= i < |exchanges|
        ensures exchanges[i].Reaches(READ_CAP)
      {
        assert AlignedAt(exchanges, rest, i) && AlignedAt(exchanges, rest, i + 1);
        AlignedNext(exchanges, rest, i);
      }
    }
  }

  /** What an answer becomes: an error if it has one, with the server's code and message or the
      defaults, and its data; otherwise its result. */
  predicate Becomes(body: Body, outcome: Outcome) {
    match outcome
    case RequestError(code, message, data) =>
      body.error.Some? &&
      var e := body.error.value;
      && code == (if e.code.Some? then e.code.value else -32603)
      && message == (if e.message.Some? then e.message.value else "Unknown error")
      && data == e.data
    case Returned(value) => body.error.None? && value == body.result
    case _ => false
  }

  /** As long as the exchanges are reached, the k-th request ends as the k-th answer says: in an
      error, with its details, exactly when the answer has one, and otherwise in its result. */
  lemma AnswersAreDelivered(exchanges: seq<Exchange>, rest: seq<Line>, n: nat, k: nat)
    requires Answers(exchanges) && k < n <= |exchanges|
    requires forall i :: 0 <= i < n ==> exchanges[i].Reaches(READ_CAP)
    ensures var (outcomes, c) := Requests(Fresh(Output(exchanges, rest)), n);
            && |outcomes| == n && Becomes(exchanges[k].body, outcomes[k])
            && (outcomes[k].RequestError? <==> exchanges[k].body.error.Some?)
  {
    RequestsStayAligned(exchanges, rest, n);
  }

  /** What an unsuccessful read leaves of an exchange: the answer, and what is unread before. */
  function Left(e: Exchange, budget: nat): Exchange
    decreases |e.before|
  {
    if budget == 0 || e.before == [] then e
    else
      var tail := e.(before := e.before[1..]);
      if IsNoise(e.before[0]) then Left(tail, budget)
      else if e.before[0].Notification? then Left(tail, budget - 1)
      else tail
  }

  lemma {:induction false} AnswerStaysUnread(e: Exchange, rest: seq<Line>, budget: nat)
    requires e.Valid() && !e.Reaches(budget)
    ensures Left(e, budget).Valid() && Left(e, budget).id == e.id && Left(e, budget).body == e.body
    ensures Await(e.Output() + rest, budget).1 == Left(e, budget).Output() + rest
    decreases |e.before|
  {
    var stream := e.Output() + rest;
    if budget > 0 {
      var tail := e.(before := e.before[1..]);
      assert stream[1..] == tail.Output() + rest && stream[0] == e.before[0];
      UnbrokenTail(e.before);
      if IsNoise(e.before[0]) {
        assert SkipNoise(stream) == SkipNoise(stream[1..]);
        AnswerStaysUnread(tail, rest, budget);
      } else if e.before[0].Notification? {
        AnswerStaysUnread(tail, rest, budget - 1);
      }
    }
  }

  /** The first request to miss its answer fails, and from then on the ids differ: the next
      request delivers that answer, which carries the id of the failed one, exactly when
      nothing that is still unread stands in its way. */
  lemma LateAnswerIsMisdelivered(exchanges: seq<Exchange>, rest: seq<Line>, k: nat)
    requires Answers(exchanges) && k < |exchanges| && !exchanges[k].Reaches(READ_CAP)
    requires forall i :: 0 <= i < k ==> exchanges[i].Reaches(READ_CAP)
    ensures var (outcomes, c) := Requests(Fresh(Output(exchanges, rest)), k + 2);
            && |outcomes| == |c.sent| == k + 2
            && exchanges[k].id == Some(c.sent[k]) && exchanges[k].id != Some(c.sent[k + 1])
            && outcomes[k] in MISSES
            && (outcomes[k + 1] == Deliver(exchanges[k].body) <==> Left(exchanges[k], READ_CAP).Reaches(READ_CAP))
  {
    var e, stream, next := exchanges[k], Output(exchanges, rest), Output(exchanges[k + 1..], rest);
    RequestsStayAligned(exchanges, rest, k);
    assert exchanges[k..][0] == e && exchanges[k..][1..] == exchanges[k + 1..];
    AwaitExchange(e, next, READ_CAP);
    AnswerStaysUnread(e, next, READ_CAP);
    AwaitExchange(Left(e, READ_CAP), next, READ_CAP);
    RequestIds(stream, k + 2);
    assert Requests(Fresh(stream), k + 1).1.stream == Left(e, READ_CAP).Output() + next;
  }

  /** One unreadable line, or one silence, and no notification at all: the first request fails,
      and the second is given the answer of the first. */
  lemma OneBreakMisaligns(line: Line, body: Body)
    requires line.Unreadable? || line.Silence?
    ensures var e := Exchange([line], Some(1), body);
            var (outcomes, c) := Requests(Fresh(Output([e], [])), 2);
            && Answers([e]) && Notifications(e.before) == 0
            && |outcomes| == |c.sent| == 2 && outcomes[0] in MISSES
            && outcomes[1] == Deliver(body) && e.id == Some(c.sent[0]) && c.sent[1] == 2
  {
    var e := Exchange([line], Some(1), body);
    assert e.before[0] == line;
    LateAnswerIsMisdelivered([e], [], 0);
    RequestIds(Output([e], []), 2);
  }
}
