/** A session's history (src/services/memory/context): split into windows and recent messages,
    and its views. */
module SessionContext {
  import opened Prelude

  datatype Draft = Draft(role: string, content: string, taskId: Option<string>, toolCalls: Option<string>,
    toolResults: Option<string>)

  datatype Message = Message(sequence: int, draft: Draft)

  datatype Window = Window(startSequence: int, endSequence: int, messages: seq<Message>, tokenCount: int)

  datatype Context = Context(windows: seq<Window>, recent: seq<Message>, lastSequence: int, totalMessages: int,
    dirty: bool)

  const FRESH := Context([], [], 0, 0, false)

  function ContentLength(messages: seq<Message>): nat {
    if messages == [] then 0
    else ContentLength(messages[..|messages| - 1]) + |messages[|messages| - 1].draft.content|
  }

  function MakeWindow(messages: seq<Message>): Window
    requires messages != []
  {
    Window(messages[0].sequence, messages[|messages| - 1].sequence, messages, ContentLength(messages) / 4)
  }

  /** `MessageHandler.add_message`, for any configured `maxRecent`. */
  function AfterAdd(maxRecent: int, c: Context, d: Draft): Context {
    var message := Message(c.lastSequence + 1, d);
    var recent := c.recent + [message];
    var c1 := c.(lastSequence := c.lastSequence + 1, totalMessages := c.totalMessages + 1, dirty := true);
    if |recent| > maxRecent then
      var oldMessages := SliceTo(recent, -maxRecent);
      c1.(recent := SliceFrom(recent, -maxRecent),
          windows := if oldMessages != [] then c.windows + [MakeWindow(oldMessages)] else c.windows)
    else c1.(recent := recent)
  }

  // ---------------------------------------------------------------------------
  // The segmented history refines a flat log

  function Flatten(windows: seq<Window>): seq<Message> {
    if windows == [] then [] else Flatten(windows[..|windows| - 1]) + windows[|windows| - 1].messages
  }

  function History(c: Context): seq<Message> {
    Flatten(c.windows) + c.recent
  }

  function Contents(maxRecent: int, drafts: seq<Draft>): Context {
    if drafts == [] then FRESH
    else AfterAdd(maxRecent, Contents(maxRecent, drafts[..|drafts| - 1]), drafts[|drafts| - 1])
  }

  /** The flat log of additions, numbered from one. */
  function Log(drafts: seq<Draft>): seq<Message> {
    seq(|drafts|, i requires 0 <= i < |drafts| => Message(i + 1, drafts[i]))
  }

  /** Whatever `maxRecent` is, an addition appends one message to the history, numbered next. */
  lemma AddAppends(maxRecent: int, c: Context, d: Draft)
    ensures History(AfterAdd(maxRecent, c, d)) == History(c) + [Message(c.lastSequence + 1, d)]
    ensures maxRecent >= 1 ==> |AfterAdd(maxRecent, c, d).recent| <= maxRecent
    ensures AfterAdd(maxRecent, c, d).lastSequence == c.lastSequence + 1
    ensures AfterAdd(maxRecent, c, d).totalMessages == c.totalMessages + 1
    ensures AfterAdd(maxRecent, c, d).dirty
  {
    var flat, m := Flatten(c.windows), Message(c.lastSequence + 1, d);
    var recent := c.recent + [m];
    assert flat + recent == History(c) + [m];
    assert History(AfterAdd(maxRecent, c, d)) == flat + recent by {
      SpillKeepsHistory(maxRecent, c, d);
    }
  }

  lemma SpillKeepsHistory(maxRecent: int, c: Context, d: Draft)
    ensures History(AfterAdd(maxRecent, c, d)) == Flatten(c.windows) + (c.recent + [Message(c.lastSequence + 1, d)])
  {
    var recent := c.recent + [Message(c.lastSequence + 1, d)];
    if |recent| > maxRecent {
      SlicesMeet(recent, -maxRecent);
      SplitHistory(c.windows, recent, SliceTo(recent, -maxRecent), SliceFrom(recent, -maxRecent));
    }
  }

  lemma SlicesMeet(s: seq<Message>, i: int)
    ensures SliceTo(s, i) + SliceFrom(s, i) == s
  {
  }

  /** Moving the head of the recent messages into a window keeps the history. */
  lemma SplitHistory(windows: seq<Window>, recent: seq<Message>, oldMessages: seq<Message>, rest: seq<Message>)
    requires oldMessages + rest == recent
    ensures Flatten(if oldMessages != [] then windows + [MakeWindow(oldMessages)] else windows) + rest ==
            Flatten(windows) + recent
  {
    if oldMessages != [] {
      FlattenSnoc(windows, MakeWindow(oldMessages));
    }
    assert Flatten(windows) + oldMessages + rest == Flatten(windows) + recent;
  }

  lemma FlattenSnoc(windows: seq<Window>, w: Window)
    ensures Flatten(windows + [w]) == Flatten(windows) + w.messages
  {
    assert (windows + [w])[..|windows|] == windows;
  }

  lemma LogSnoc(drafts: seq<Draft>, d: Draft)
    ensures Log(drafts + [d]) == Log(drafts) + [Message(|drafts| + 1, d)]
  {
  }

  ghost predicate RefinesLog(c: Context, drafts: seq<Draft>) {
    && History(c) == Log(drafts)
    && c.lastSequence == c.totalMessages == |drafts|
    && (drafts != [] ==> c.dirty)
  }

  lemma AddRefinesLog(maxRecent: int, c: Context, drafts: seq<Draft>, d: Draft)
    requires RefinesLog(c, drafts)
    ensures RefinesLog(AfterAdd(maxRecent, c, d), drafts + [d])
  {
    AddAppends(maxRecent, c, d);
    LogSnoc(drafts, d);
  }

  lemma ContentsSnoc(maxRecent: int, drafts: seq<Draft>, d: Draft)
    ensures Contents(maxRecent, drafts + [d]) == AfterAdd(maxRecent, Contents(maxRecent, drafts), d)
  {
    assert (drafts + [d])[..|drafts|] == drafts;
  }

  /** After any additions to a fresh context, windows and recent together are the flat log. */
  lemma {:induction false} SegmentedRefinesLog(maxRecent: int, drafts: seq<Draft>)
    ensures RefinesLog(Contents(maxRecent, drafts), drafts)
  {
    if drafts != [] {
      var p, d := drafts[..|drafts| - 1], drafts[|drafts| - 1];
      assert drafts == p + [d];
      SegmentedRefinesLog(maxRecent, p);
      AddRefinesLog(maxRecent, Contents(maxRecent, p), p, d);
      ContentsSnoc(maxRecent, p, d);
    }
  }

  ghost predicate WindowsMade(c: Context) {
    forall i :: 0 <= i < |c.windows| ==>
      c.windows[i].messages != [] && c.windows[i] == MakeWindow(c.windows[i].messages)
  }

  lemma {:induction false} WindowsAreMade(maxRecent: int, drafts: seq<Draft>)
    ensures WindowsMade(Contents(maxRecent, drafts))
  {
    if drafts != [] {
      WindowsAreMade(maxRecent, drafts[..|drafts| - 1]);
    }
  }

  /** The texts of messages, one after the other. */
  function AllText(messages: seq<Message>): string {
    if messages == [] then ""
    else AllText(messages[..|messages| - 1]) + messages[|messages| - 1].draft.content
  }

  lemma {:induction false} LengthOfText(messages: seq<Message>)
    ensures ContentLength(messages) == |AllText(messages)|
  {
    if messages != [] {
      LengthOfText(messages[..|messages| - 1]);
    }
  }

  lemma {:induction false} FlattenAt(windows: seq<Window>, i: nat, j: nat)
    requires i < |windows| && j < |windows[i].messages|
    ensures |Flatten(windows[..i])| + j < |Flatten(windows)|
    ensures Flatten(windows)[|Flatten(windows[..i])| + j] == windows[i].messages[j]
  {
    var n := |windows| - 1;
    if i < n {
      FlattenAt(windows[..n], i, j);
      assert windows[..n][..i] == windows[..i];
    }
  }

  lemma FlattenNext(windows: seq<Window>, i: nat)
    requires i < |windows|
    ensures |Flatten(windows[..i + 1])| == |Flatten(windows[..i])| + |windows[i].messages|
  {
    assert windows[..i + 1][..i] == windows[..i];
  }

  /** The messages of the i-th window are numbered on from those of the windows before it. */
  lemma WindowNumbers(maxRecent: int, drafts: seq<Draft>, i: nat, j: nat)
    requires i < |Contents(maxRecent, drafts).windows| && j < |Contents(maxRecent, drafts).windows[i].messages|
    ensures var windows := Contents(maxRecent, drafts).windows;
            windows[i].messages[j].sequence == |Flatten(windows[..i])| + j + 1
  {
    var c := Contents(maxRecent, drafts);
    SegmentedRefinesLog(maxRecent, drafts);
    FlattenAt(c.windows, i, j);
    var k := |Flatten(c.windows[..i])| + j;
    assert History(c)[k] == Flatten(c.windows)[k];
    assert Log(drafts)[k].sequence == k + 1;
  }

  /** The windows of a context: each bounded by the sequences of its first and last message,
      which are as far apart as it has messages, with a quarter of its text's length as size;
      the first begins at one, each next one where the last ended, and recent goes on. */
  ghost predicate WindowsSound(c: Context) {
    && (forall i :: 0 <= i < |c.windows| ==> WindowSound(c.windows[i]))
    && (c.windows != [] ==> c.windows[0].startSequence == 1)
    && (forall i :: 0 < i < |c.windows| ==> c.windows[i].startSequence == c.windows[i - 1].endSequence + 1)
    && (c.windows != [] && c.recent != [] ==>
          c.recent[0].sequence == c.windows[|c.windows| - 1].endSequence + 1)
  }

  ghost predicate WindowSound(w: Window) {
    && w.messages != []
    && w.startSequence == w.messages[0].sequence
    && w.endSequence == w.messages[|w.messages| - 1].sequence
    && w.endSequence - w.startSequence + 1 == |w.messages|
    && 4 * w.tokenCount <= |AllText(w.messages)| < 4 * w.tokenCount + 4
  }

  lemma WindowBoundsMatch(maxRecent: int, drafts: seq<Draft>)
    ensures WindowsSound(Contents(maxRecent, drafts))
  {
    var c := Contents(maxRecent, drafts);
    WindowsAreMade(maxRecent, drafts);
    forall i | 0 <= i < |c.windows|
      ensures WindowSound(c.windows[i])
      ensures c.windows[i].startSequence == |Flatten(c.windows[..i])| + 1
      ensures c.windows[i].endSequence == |Flatten(c.windows[..i + 1])|
    {
      WindowIsSound(maxRecent, drafts, i);
    }
    if c.windows != [] {
      assert c.windows[..0] == [] && c.windows[..|c.windows|] == c.windows;
      RecentGoesOn(maxRecent, drafts);
    }
  }

  lemma RecentGoesOn(maxRecent: int, drafts: seq<Draft>)
    ensures var c := Contents(maxRecent, drafts);
            c.recent != [] ==> c.recent[0].sequence == |Flatten(c.windows)| + 1
  {
    var c := Contents(maxRecent, drafts);
    SegmentedRefinesLog(maxRecent, drafts);
    assert c.recent != [] ==> c.recent[0] == History(c)[|Flatten(c.windows)|];
  }

  lemma WindowIsSound(maxRecent: int, drafts: seq<Draft>, i: nat)
    requires i < |Contents(maxRecent, drafts).windows| && WindowsMade(Contents(maxRecent, drafts))
    ensures var windows := Contents(maxRecent, drafts).windows;
            && WindowSound(windows[i])
            && windows[i].startSequence == |Flatten(windows[..i])| + 1
            && windows[i].endSequence == |Flatten(windows[..i + 1])|
  {
    var w := Contents(maxRecent, drafts).windows[i];
    WindowNumbers(maxRecent, drafts, i, 0);
    WindowNumbers(maxRecent, drafts, i, |w.messages| - 1);
    FlattenNext(Contents(maxRecent, drafts).windows, i);
    LengthOfText(w.messages);
  }

  /** The recent part stays within `maxRecent` exactly when that is positive: a limit of
      zero makes the Python slice keep everything. */
  lemma RecentBoundedExactly(maxRecent: int)
    ensures (forall drafts :: |Contents(maxRecent, drafts).recent| <= maxRecent) <==> maxRecent >= 1
  {
    var one := [Draft("user", "", None, None, None)];
    if maxRecent >= 1 {
      forall drafts
        ensures |Contents(maxRecent, drafts).recent| <= maxRecent
      {
        if drafts != [] {
          AddAppends(maxRecent, Contents(maxRecent, drafts[..|drafts| - 1]), drafts[|drafts| - 1]);
        }
      }
    } else if maxRecent == 0 {
      assert one[..0] == [];
      assert |Contents(0, one).recent| == 1;
    } else {
      assert |Contents(maxRecent, []).recent| == 0;
    }
  }

  lemma AddKeepsTail(maxRecent: int, c: Context, log: seq<Message>, d: Draft)
    requires maxRecent >= 1 && c.recent == LastN(log, maxRecent)
    ensures AfterAdd(maxRecent, c, d).recent == LastN(log + [Message(c.lastSequence + 1, d)], maxRecent)
  {
  }

  lemma NextIsLogEnd(maxRecent: int, drafts: seq<Draft>)
    requires maxRecent >= 1 && drafts != []
    requires var p := drafts[..|drafts| - 1]; Contents(maxRecent, p).recent == LastN(Log(p), maxRecent)
    ensures Contents(maxRecent, drafts).recent == LastN(Log(drafts), maxRecent)
  {
    var p, d := drafts[..|drafts| - 1], drafts[|drafts| - 1];
    assert drafts == p + [d];
    assert Contents(maxRecent, p).lastSequence == |p| by {
      SegmentedRefinesLog(maxRecent, p);
    }
    ContentsSnoc(maxRecent, p, d);
    LogSnoc(p, d);
    AddKeepsTail(maxRecent, Contents(maxRecent, p), Log(p), d);
  }

  lemma NothingYet(maxRecent: int)
    requires maxRecent >= 1
    ensures Contents(maxRecent, []).recent == LastN(Log([]), maxRecent)
  {
  }

  /** With a positive limit the recent part is exactly the end of the log. */
  lemma {:induction false} RecentIsLogEnd(maxRecent: int, drafts: seq<Draft>)
    requires maxRecent >= 1
    ensures Contents(maxRecent, drafts).recent == LastN(Log(drafts), maxRecent)
  {
    if drafts == [] {
      NothingYet(maxRecent);
    } else {
      RecentIsLogEnd(maxRecent, drafts[..|drafts| - 1]);
      NextIsLogEnd(maxRecent, drafts);
    }
  }

  // ---------------------------------------------------------------------------
  // Views

  ghost predicate InOrder(s: seq<Message>) {
    forall i, j :: 0 <= i < j < |s| ==> s[i].sequence <= s[j].sequence
  }

  /** Inserting after every message that does not come later. */
  function Insert(m: Message, s: seq<Message>): seq<Message> {
    if s == [] || s[|s| - 1].sequence <= m.sequence then s + [m]
    else Insert(m, s[..|s| - 1]) + [s[|s| - 1]]
  }

  /** Python's `sort` with the sequence as key: stable. */
  function SortBySequence(s: seq<Message>): seq<Message> {
    if s == [] then [] else Insert(s[|s| - 1], SortBySequence(s[..|s| - 1]))
  }

  lemma {:induction false} InsertKeepsAll(m: Message, s: seq<Message>)
    ensures multiset(Insert(m, s)) == multiset(s) + multiset{m}
  {
    if s != [] && s[|s| - 1].sequence > m.sequence {
      var p := s[..|s| - 1];
      InsertKeepsAll(m, p);
      assert s == p + [s[|s| - 1]];
    }
  }

  lemma {:induction false} InsertKeepsOrder(m: Message, s: seq<Message>)
    requires InOrder(s)
    ensures InOrder(Insert(m, s)) && Insert(m, s) != []
    ensures Insert(m, s)[|Insert(m, s)| - 1].sequence == if s == [] then m.sequence
            else Max(m.sequence, s[|s| - 1].sequence)
  {
    if s != [] && s[|s| - 1].sequence > m.sequence {
      var p, last := s[..|s| - 1], s[|s| - 1];
      InsertKeepsOrder(m, p);
      OrderSnoc(Insert(m, p), last);
    } else {
      OrderSnoc(s, m);
    }
  }

  lemma OrderSnoc(s: seq<Message>, last: Message)
    requires InOrder(s) && (s != [] ==> s[|s| - 1].sequence <= last.sequence)
    ensures InOrder(s + [last])
  {
  }

  /** The sort orders its input and loses nothing. */
  lemma {:induction false} SortSorts(s: seq<Message>)
    ensures InOrder(SortBySequence(s)) && multiset(SortBySequence(s)) == multiset(s)
  {
    if s != [] {
      var p := s[..|s| - 1];
      SortSorts(p);
      assert s == p + [s[|s| - 1]];
      InsertKeepsOrder(s[|s| - 1], SortBySequence(p));
      InsertKeepsAll(s[|s| - 1], SortBySequence(p));
    }
  }

  lemma {:induction false} SortOfSorted(s: seq<Message>)
    requires InOrder(s)
    ensures SortBySequence(s) == s
  {
    if s != [] {
      SortOfSorted(s[..|s| - 1]);
    }
  }

  predicate OccursAt(text: string, part: string, i: int) {
    0 <= i <= |text| - |part| && text[i..i + |part|] == part
  }

  predicate Mentions(text: string, part: string) {
    exists i :: 0 <= i <= |text| - |part| && OccursAt(text, part, i)
  }

  function MatchesQuery(lower: string -> string, query: string): Message -> bool {
    (m: Message) => Mentions(lower(m.draft.content), lower(query))
  }

  function MatchesFile(path: string): Message -> bool {
    (m: Message) => Mentions(m.draft.content, path)
  }

  class ContextBuilder {
    constructor () {
    }

    method BuildForUi(c: Context, limit: int) returns (view: seq<Message>)
      ensures view == SliceFrom(SortBySequence(History(c)), -limit)
    {
      var all := [];
      for i := 0 to |c.windows|
        invariant all == Flatten(c.windows[..i])
      {
        assert c.windows[..i + 1][..i] == c.windows[..i];
        all := all + c.windows[i].messages;
      }
      assert c.windows[..|c.windows|] == c.windows;
      all := all + c.recent;
      all := SortBySequence(all);
      view := SliceFrom(all, -limit);
    }

    method Select(keep: Message -> bool, c: Context) returns (results: seq<Message>)
      ensures results == Filter(keep, History(c))
    {
      results := [];
      for i := 0 to |c.windows|
        invariant results == Filter(keep, Flatten(c.windows[..i]))
      {
        assert c.windows[..i + 1][..i] == c.windows[..i];
        var messages := c.windows[i].messages;
        FilterAppend(keep, Flatten(c.windows[..i]), messages);
        var picked := Pick(keep, messages);
        results := results + picked;
      }
      assert c.windows[..|c.windows|] == c.windows;
      var picked := Pick(keep, c.recent);
      results := results + picked;
      FilterAppend(keep, Flatten(c.windows), c.recent);
    }

    method Pick(keep: Message -> bool, messages: seq<Message>) returns (results: seq<Message>)
      ensures results == Filter(keep, messages)
    {
      results := [];
      for i := 0 to |messages|
        invariant results == Filter(keep, messages[..i])
      {
        assert messages[..i + 1][..i] == messages[..i];
        if keep(messages[i]) {
          results := results + [messages[i]];
        }
      }
      assert messages[..|messages|] == messages;
    }

    method Search(lower: string -> string, c: Context, query: string) returns (results: seq<Message>)
      ensures results == Filter(MatchesQuery(lower, query), History(c))
    {
      results := Select(MatchesQuery(lower, query), c);
    }

    method GetFileContext(c: Context, path: string) returns (results: seq<Message>)
      ensures results == Filter(MatchesFile(path), History(c))
    {
      results := Select(MatchesFile(path), c);
    }
  }

  /** The last `limit` messages of the log, and none for a limit below one. */
  function Tail(log: seq<Message>, limit: int): seq<Message> {
    LastN(log, Max(0, limit))
  }

  /** The UI view of a context built by additions is the last min(limit, n) messages of the
      log, its sort changing nothing, exactly when the limit is positive or its negation
      reaches past the log. */
  lemma UiIsTailExactly(maxRecent: int, drafts: seq<Draft>, limit: int)
    ensures var c := Contents(maxRecent, drafts);
            && SortBySequence(History(c)) == Log(drafts)
            && (SliceFrom(SortBySequence(History(c)), -limit) == Tail(Log(drafts), limit) <==>
                limit >= 1 || |drafts| <= -limit)
  {
    SegmentedRefinesLog(maxRecent, drafts);
    SortOfSorted(Log(drafts));
    SliceIsTailExactly(Log(drafts), limit);
  }

  lemma SliceIsTailExactly(log: seq<Message>, limit: int)
    ensures SliceFrom(log, -limit) == Tail(log, limit) <==> limit >= 1 || |log| <= -limit
  {
    if limit <= 0 {
      assert |SliceFrom(log, -limit)| == Max(0, |log| + limit) && Tail(log, limit) == [];
    }
  }

  /** Searching the segments is searching the log. */
  lemma SearchIsFilter(maxRecent: int, drafts: seq<Draft>, keep: Message -> bool)
    ensures Filter(keep, History(Contents(maxRecent, drafts))) == Filter(keep, Log(drafts))
  {
    SegmentedRefinesLog(maxRecent, drafts);
  }

  /** A message is a hit of a search exactly when it is in the log and the query occurs in its
      text, both lower-cased; and of a file exactly when its text holds the path as it is. */
  lemma HitsExactly(maxRecent: int, drafts: seq<Draft>, lower: string -> string, query: string, m: Message)
    ensures var c := Contents(maxRecent, drafts);
            && (m in Filter(MatchesQuery(lower, query), History(c)) <==>
                  m in Log(drafts) && exists a, b :: lower(m.draft.content) == a + lower(query) + b)
            && (m in Filter(MatchesFile(query), History(c)) <==>
                  m in Log(drafts) && exists a, b :: m.draft.content == a + query + b)
  {
    SegmentedRefinesLog(maxRecent, drafts);
    FilterMember(MatchesQuery(lower, query), Log(drafts), m);
    FilterMember(MatchesFile(query), Log(drafts), m);
    MentionsExactly(lower(m.draft.content), lower(query));
    MentionsExactly(m.draft.content, query);
  }

  lemma MentionsExactly(text: string, part: string)
    ensures Mentions(text, part) <==> exists a, b :: text == a + part + b
  {
    if Mentions(text, part) {
      var i :| 0 <= i <= |text| - |part| && OccursAt(text, part, i);
      assert text == text[..i] + part + text[i + |part|..];
    }
    if a, b :| text == a + part + b {
      assert OccursAt(text, part, |a|);
    }
  }
}
