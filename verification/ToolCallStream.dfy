/** Assembling the model's streamed answer (src/services/agent_loop/brain/llm_caller.py):
    text tokens in order, and tool calls whose names and arguments arrive in fragments,
    interleaved by index. */
module ToolCallStream {
  import opened Prelude
  import opened Policy
  import AgentLoop

  /** One element of `delta.tool_calls`. An absent name or argument text is empty: both are
      skipped. `hasFunction` is the truth of `tc.function`. */
  datatype Fragment = Fragment(index: int, id: string, kind: string, hasFunction: bool, name: string, arguments: string)

  /** A chunk with no usable choice is skipped; otherwise it carries text and fragments. */
  datatype Chunk = Empty | Delta(content: string, toolCalls: seq<Fragment>)

  datatype ToolCall = ToolCall(id: string, kind: string, name: string, arguments: string)

  // ---------------------------------------------------------------------------
  // What the stream says, index by index

  function Fragments(chunks: seq<Chunk>): seq<Fragment> {
    if chunks == [] then []
    else
      var last := chunks[|chunks| - 1];
      Fragments(chunks[..|chunks| - 1]) + (if last.Delta? then last.toolCalls else [])
  }

  function Text(chunks: seq<Chunk>): string {
    if chunks == [] then ""
    else
      var last := chunks[|chunks| - 1];
      Text(chunks[..|chunks| - 1]) + (if last.Delta? then last.content else "")
  }

  function Join(parts: seq<string>): string {
    if parts == [] then "" else Join(parts[..|parts| - 1]) + parts[|parts| - 1]
  }

  function At(index: int): Fragment -> bool {
    (f: Fragment) => f.index == index
  }

  function Of(fragments: seq<Fragment>, index: int): seq<Fragment> {
    Filter(At(index), fragments)
  }

  /** The indexes in first-seen order. */
  function Order(fragments: seq<Fragment>): seq<int> {
    if fragments == [] then []
    else
      var p, f := fragments[..|fragments| - 1], fragments[|fragments| - 1];
      if f.index in Order(p) then Order(p) else Order(p) + [f.index]
  }

  function JoinNames(fragments: seq<Fragment>): string {
    if fragments == [] then ""
    else
      var f := fragments[|fragments| - 1];
      JoinNames(fragments[..|fragments| - 1]) + (if f.hasFunction then f.name else "")
  }

  function JoinArguments(fragments: seq<Fragment>): string {
    if fragments == [] then ""
    else
      var f := fragments[|fragments| - 1];
      JoinArguments(fragments[..|fragments| - 1]) + (if f.hasFunction then f.arguments else "")
  }

  /** The call of one index: identified by its first fragment, spelled by all of them. */
  function CallOf(mine: seq<Fragment>): ToolCall
    requires mine != []
  {
    ToolCall(mine[0].id, mine[0].kind, JoinNames(mine), JoinArguments(mine))
  }

  lemma {:induction false} OrderHasIndex(fragments: seq<Fragment>, index: int)
    ensures index in Order(fragments) <==> Of(fragments, index) != []
  {
    if fragments != [] {
      OrderHasIndex(fragments[..|fragments| - 1], index);
    }
  }

  lemma {:induction false} OrderIsDistinct(fragments: seq<Fragment>)
    ensures forall i, j :: 0 <= i < j < |Order(fragments)| ==> Order(fragments)[i] != Order(fragments)[j]
  {
    if fragments != [] {
      OrderIsDistinct(fragments[..|fragments| - 1]);
    }
  }

  /** The calls the stream spells out, in first-seen order of their indexes. */
  function Calls(fragments: seq<Fragment>): (calls: seq<ToolCall>)
    ensures |calls| == |Order(fragments)|
  {
    seq(|Order(fragments)|, i requires 0 <= i < |Order(fragments)| =>
      OrderHasIndex(fragments, Order(fragments)[i]);
      CallOf(Of(fragments, Order(fragments)[i])))
  }

  // ---------------------------------------------------------------------------
  // The chunk loop

  /** `tool_calls_dict`: a dict in insertion order. */
  datatype CallDict = CallDict(order: seq<int>, calls: map<int, ToolCall>) {
    function Add(f: Fragment): CallDict {
      var d := if f.index in calls then this
               else CallDict(order + [f.index], calls[f.index := ToolCall(f.id, f.kind, "", "")]);
      if f.hasFunction then
        var c := d.calls[f.index];
        d.(calls := d.calls[f.index := c.(name := c.name + f.name, arguments := c.arguments + f.arguments)])
      else d
    }

    ghost predicate Represents(fragments: seq<Fragment>) {
      && order == Order(fragments)
      && (forall i :: i in order ==> i in calls)
      && (forall i :: i in calls ==> i in order)
      && forall i :: i in calls ==> Of(fragments, i) != [] && calls[i] == CallOf(Of(fragments, i))
    }

    /** `list(tool_calls_dict.values())`. */
    function Values(): seq<ToolCall>
      requires forall i :: 0 <= i < |order| ==> order[i] in calls
    {
      seq(|order|, i requires 0 <= i < |order| && order[i] in calls => calls[order[i]])
    }
  }

  lemma JoinSnoc(mine: seq<Fragment>, f: Fragment)
    ensures JoinNames(mine + [f]) == JoinNames(mine) + (if f.hasFunction then f.name else "")
    ensures JoinArguments(mine + [f]) == JoinArguments(mine) + (if f.hasFunction then f.arguments else "")
    ensures mine == [] ==> JoinNames(mine) == "" && JoinArguments(mine) == ""
  {
    assert (mine + [f])[..|mine|] == mine;
  }

  lemma CallSnoc(mine: seq<Fragment>, f: Fragment)
    ensures var before := if mine == [] then ToolCall(f.id, f.kind, "", "") else CallOf(mine);
            CallOf(mine + [f]) ==
            if f.hasFunction then before.(name := before.name + f.name, arguments := before.arguments + f.arguments)
              else before
  {
    JoinSnoc(mine, f);
  }

  lemma AddRepresents(d: CallDict, fragments: seq<Fragment>, f: Fragment)
    requires d.Represents(fragments)
    ensures d.Add(f).Represents(fragments + [f])
  {
    var all, mine, e := fragments + [f], Of(fragments, f.index), d.Add(f);
    assert all[..|fragments|] == fragments;
    OrderHasIndex(fragments, f.index);
    OwnCall(d, fragments, f);
    forall i | i in e.calls && i != f.index
      ensures Of(all, i) == Of(fragments, i) && i in d.calls && e.calls[i] == d.calls[i]
    {
    }
  }

  lemma OwnCall(d: CallDict, fragments: seq<Fragment>, f: Fragment)
    requires d.Represents(fragments)
    ensures Of(fragments + [f], f.index) != [] && f.index in d.Add(f).calls
    ensures d.Add(f).calls[f.index] == CallOf(Of(fragments + [f], f.index))
  {
    var mine := Of(fragments, f.index);
    assert (fragments + [f])[..|fragments|] == fragments;
    assert Of(fragments + [f], f.index) == mine + [f];
    OrderHasIndex(fragments, f.index);
    CallSnoc(mine, f);
  }

  lemma MergedSnoc(d: CallDict, before: seq<Fragment>, toolCalls: seq<Fragment>, k: nat)
    requires k < |toolCalls| && d.Represents(before + toolCalls[..k])
    ensures d.Add(toolCalls[k]).Represents(before + toolCalls[..k + 1])
  {
    AddRepresents(d, before + toolCalls[..k], toolCalls[k]);
    assert before + toolCalls[..k + 1] == before + toolCalls[..k] + [toolCalls[k]];
  }

  /** The inner loop: the fragments of one chunk. */
  method Merge(start: CallDict, toolCalls: seq<Fragment>, ghost before: seq<Fragment>) returns (dict: CallDict)
    requires start.Represents(before)
    ensures dict.Represents(before + toolCalls)
  {
    dict := start;
    assert before + toolCalls[..0] == before;
    for k := 0 to |toolCalls|
      invariant dict.Represents(before + toolCalls[..k])
    {
      MergedSnoc(dict, before, toolCalls, k);
      dict := MergeOne(dict, toolCalls[k]);
    }
    assert toolCalls[..|toolCalls|] == toolCalls;
  }

  /** The body of that loop. */
  method MergeOne(start: CallDict, tc: Fragment) returns (dict: CallDict)
    ensures dict == start.Add(tc)
  {
    dict := start;
    if tc.index !in dict.calls {
      dict := CallDict(dict.order + [tc.index], dict.calls[tc.index := ToolCall(tc.id, tc.kind, "", "")]);
    }
    if tc.hasFunction {
      var call := dict.calls[tc.index];
      assert call.name + "" == call.name && call.arguments + "" == call.arguments;
      if tc.name != "" {
        call := call.(name := call.name + tc.name);
      }
      if tc.arguments != "" {
        call := call.(arguments := call.arguments + tc.arguments);
      }
      dict := dict.(calls := dict.calls[tc.index := call]);
    }
  }

  /** Consumes the chunks; returns the collected text and the dict. */
  method Collect(chunks: seq<Chunk>) returns (collected: seq<string>, dict: CallDict)
    ensures Join(collected) == Text(chunks)
    ensures dict.Represents(Fragments(chunks))
  {
    collected, dict := [], CallDict([], map[]);
    for n := 0 to |chunks|
      invariant Join(collected) == Text(chunks[..n])
      invariant dict.Represents(Fragments(chunks[..n]))
    {
      assert chunks[..n + 1][..n] == chunks[..n];
      if chunks[n].Delta? {
        if chunks[n].content != "" {
          assert (collected + [chunks[n].content])[..|collected|] == collected;
          collected := collected + [chunks[n].content];
        }
        dict := Merge(dict, chunks[n].toolCalls, Fragments(chunks[..n]));
      }
      assert Fragments(chunks[..n]) + [] == Fragments(chunks[..n]);
    }
    assert chunks[..|chunks|] == chunks;
  }

  /** The dict lists each index's call, fragments joined in order, by first appearance. */
  lemma ValuesAreCalls(d: CallDict, fragments: seq<Fragment>)
    requires d.Represents(fragments)
    ensures (forall i :: 0 <= i < |d.order| ==> d.order[i] in d.calls) && d.Values() == Calls(fragments)
  {
    forall i | 0 <= i < |d.order|
      ensures d.order[i] in d.calls && d.calls[d.order[i]] == Calls(fragments)[i]
    {
      var index := d.order[i];
      assert index in d.order;
      assert index in d.calls;
    }
  }

  /** How fragments of different indexes interleave does not matter: two streams with the
      same fragments per index, first seen in the same order, give the same calls. */
  lemma InterleavingIsIrrelevant(some: seq<Fragment>, other: seq<Fragment>)
    requires Order(some) == Order(other)
    requires forall index :: Of(some, index) == Of(other, index)
    ensures Calls(some) == Calls(other)
  {
  }

  /** Swapping two neighbouring fragments of different indexes, both seen before, changes
      nothing. */
  lemma NeighboursCommute(before: seq<Fragment>, f: Fragment, g: Fragment, after: seq<Fragment>)
    requires f.index != g.index && f.index in Order(before) && g.index in Order(before)
    ensures Calls(before + [f, g] + after) == Calls(before + [g, f] + after)
  {
    var some, other := before + [f, g], before + [g, f];
    SwapInOrder(before, f, g);
    SwapInOrder(before, g, f);
    forall index
      ensures Of(some + after, index) == Of(other + after, index)
    {
      SwapInOf(before, f, g, after, index);
    }
    OrderExtends(some, other, after);
    InterleavingIsIrrelevant(some + after, other + after);
  }

  lemma SwapInOf(before: seq<Fragment>, f: Fragment, g: Fragment, after: seq<Fragment>, index: int)
    requires f.index != g.index
    ensures Of(before + [f, g] + after, index) == Of(before + [g, f] + after, index)
  {
    FilterAppend(At(index), before + [f, g], after);
    FilterAppend(At(index), before + [g, f], after);
    FilterAppend(At(index), before, [f, g]);
    FilterAppend(At(index), before, [g, f]);
    assert [f, g][..1] == [f] && [g, f][..1] == [g];
  }

  lemma SwapInOrder(before: seq<Fragment>, f: Fragment, g: Fragment)
    requires f.index in Order(before) && g.index in Order(before)
    ensures Order(before + [f, g]) == Order(before)
  {
    assert before + [f, g] == before + [f] + [g];
    OrderSeen(before, f);
    OrderSeen(before + [f], g);
  }

  lemma OrderSeen(before: seq<Fragment>, f: Fragment)
    requires f.index in Order(before)
    ensures Order(before + [f]) == Order(before)
  {
    assert (before + [f])[..|before|] == before;
  }

  lemma {:induction false} OrderExtends(some: seq<Fragment>, other: seq<Fragment>, after: seq<Fragment>)
    requires Order(some) == Order(other)
    ensures Order(some + after) == Order(other + after)
  {
    if after == [] {
      assert some + after == some && other + after == other;
    } else {
      var n := |after| - 1;
      assert (some + after)[..|some + after| - 1] == some + after[..n];
      assert (other + after)[..|other + after| - 1] == other + after[..n];
      OrderExtends(some, other, after[..n]);
    }
  }

  /** Texts and fragments of chunks come one after the other; a chunk without a choice adds
      nothing. */
  lemma {:induction false} ChunksFollow(some: seq<Chunk>, other: seq<Chunk>)
    ensures Text(some + other) == Text(some) + Text(other)
    ensures Fragments(some + other) == Fragments(some) + Fragments(other)
    ensures forall content, calls ::
              Text([Delta(content, calls)]) == content && Fragments([Delta(content, calls)]) == calls
    ensures Text([Empty]) == "" && Fragments([Empty]) == []
  {
    forall c: Chunk
      ensures [c][..0] == []
    {
    }
    if other == [] {
      assert some + other == some;
    } else {
      assert (some + other)[..|some + other| - 1] == some + other[..|other| - 1];
      ChunksFollow(some, other[..|other| - 1]);
    }
  }

  /** A fragment that carries a whole call gives that call. */
  lemma WholeCall(f: Fragment)
    ensures f.hasFunction ==> Calls([f]) == [ToolCall(f.id, f.kind, f.name, f.arguments)]
    ensures !f.hasFunction ==> Calls([f]) == [ToolCall(f.id, f.kind, "", "")]
  {
    JoinSnoc([], f);
    assert [] + [f] == [f];
    assert [f][..0] == [];
    assert Order([f]) == [f.index];
    OnlyFragment(f);
    assert "" + f.name == f.name && "" + f.arguments == f.arguments;
    assert Calls([f])[0] == CallOf(Of([f], Order([f])[0])) == CallOf([f]);
  }

  lemma OnlyFragment(f: Fragment)
    ensures Of([f], f.index) == [f]
  {
    FilterAll(At(f.index), [f]);
  }

  /** The two parts of a fragment that is cut in two, anywhere in its name and in its arguments. */
  ghost predicate CutInTwo(f: Fragment, a: Fragment, b: Fragment) {
    && a.index == b.index == f.index && a.id == f.id && a.kind == f.kind
    && a.hasFunction == b.hasFunction == f.hasFunction
    && a.name + b.name == f.name && a.arguments + b.arguments == f.arguments
  }

  /** How a call is cut into fragments does not matter, wherever in the stream it is cut and
      whatever id the second part repeats or leaves out. */
  lemma CutsAreIrrelevant(before: seq<Fragment>, f: Fragment, a: Fragment, b: Fragment, after: seq<Fragment>)
    requires CutInTwo(f, a, b)
    ensures Calls(before + [a, b] + after) == Calls(before + [f] + after)
  {
    var cut, whole := before + [a, b], before + [f];
    CutKeepsOrder(before, f, a, b);
    OrderExtends(cut, whole, after);
    forall index | index in Order(whole + after)
      ensures Of(cut + after, index) != [] && Of(whole + after, index) != []
      ensures CallOf(Of(cut + after, index)) == CallOf(Of(whole + after, index))
    {
      OrderHasIndex(cut + after, index);
      OrderHasIndex(whole + after, index);
      CutKeepsCall(before, f, a, b, after, index);
    }
    assert forall i :: 0 <= i < |Order(whole + after)| ==> Order(whole + after)[i] in Order(whole + after);
  }

  lemma CutKeepsOrder(before: seq<Fragment>, f: Fragment, a: Fragment, b: Fragment)
    requires CutInTwo(f, a, b)
    ensures Order(before + [a, b]) == Order(before + [f])
  {
    assert before + [a, b] == before + [a] + [b];
    assert (before + [a])[..|before|] == before && (before + [f])[..|before|] == before;
    assert f.index in Order(before + [a]);
    OrderSeen(before + [a], b);
  }

  lemma CutKeepsCall(
    before: seq<Fragment>, f: Fragment, a: Fragment, b: Fragment, after: seq<Fragment>, index: int)
    requires CutInTwo(f, a, b)
    requires Of(before + [a, b] + after, index) != [] && Of(before + [f] + after, index) != []
    ensures CallOf(Of(before + [a, b] + after, index)) == CallOf(Of(before + [f] + after, index))
  {
    FilterAppend(At(index), before + [a, b], after);
    FilterAppend(At(index), before + [f], after);
    FilterAppend(At(index), before, [a, b]);
    FilterAppend(At(index), before, [f]);
    assert [a, b][..1] == [a] && [a][..0] == [] && [f][..0] == [];
    var x, y := Of(before, index), Of(after, index);
    if index == f.index {
      assert Of([a, b], index) == [a, b] && Of([f], index) == [f];
      JoinCut(x, f, a, b, y);
    } else {
      assert Of([a, b], index) == [] && Of([f], index) == [];
    }
  }

  lemma {:induction false} JoinCut(x: seq<Fragment>, f: Fragment, a: Fragment, b: Fragment, y: seq<Fragment>)
    requires CutInTwo(f, a, b)
    ensures JoinNames(x + [a, b] + y) == JoinNames(x + [f] + y)
    ensures JoinArguments(x + [a, b] + y) == JoinArguments(x + [f] + y)
  {
    if y == [] {
      assert x + [a, b] + y == x + [a] + [b] && x + [f] + y == x + [f];
      JoinSnoc(x + [a], b);
      JoinSnoc(x, a);
      JoinSnoc(x, f);
    } else {
      var p, last := y[..|y| - 1], y[|y| - 1];
      assert x + [a, b] + y == (x + [a, b] + p) + [last] && x + [f] + y == (x + [f] + p) + [last];
      JoinCut(x, f, a, b, p);
      JoinSnoc(x + [a, b] + p, last);
      JoinSnoc(x + [f] + p, last);
    }
  }

  // ---------------------------------------------------------------------------
  // Dispatch

  /** The text that is parsed: no arguments at all count as an empty object. */
  function TextOf(arguments: string): (text: string)
    ensures arguments != "" ==> text == arguments
    ensures arguments == "" ==> text == "{}"
  {
    if arguments == "" then "{}" else arguments
  }

  function Parsed(parse: string -> Option<Args>, calls: seq<ToolCall>): seq<AgentLoop.RawCall> {
    seq(|calls|, i requires 0 <= i < |calls| =>
      AgentLoop.RawCall(calls[i].id, calls[i].name,
        parse(TextOf(calls[i].arguments))))
  }

  /** The answer of a stream dispatches one batch holding every call, in first-seen order
      with its own parsed arguments, when all argument texts parse, and no batch otherwise. */
  lemma DispatchIsAllOrNothing(parse: string -> Option<Args>, chunks: seq<Chunk>, s: AgentLoop.State)
    ensures var calls := Calls(Fragments(chunks));
            var queue := AgentLoop.AfterAnswer(s, Text(chunks), Parsed(parse, calls)).executionQueue;
            if calls != [] && forall i :: 0 <= i < |calls| ==> parse(TextOf(calls[i].arguments)).Some? then
              && |queue| == |s.executionQueue| + 1 && s.executionQueue <= queue
              && (var batch := queue[|s.executionQueue|].calls;
                  |batch| == |calls| &&
                  forall i :: 0 <= i < |calls| ==>
                    batch[i].id == calls[i].id && batch[i].name == calls[i].name &&
                    Some(batch[i].args) == parse(TextOf(calls[i].arguments)))
            else queue == s.executionQueue
  {
    var calls := Calls(Fragments(chunks));
    var raw := Parsed(parse, calls);
    AllTextsParse(parse, calls);
    if AgentLoop.AllParse(raw) {
      PayloadOf(raw);
    }
    AnswerDispatches(s, Text(chunks), raw);
  }

  lemma AllTextsParse(parse: string -> Option<Args>, calls: seq<ToolCall>)
    ensures AgentLoop.AllParse(Parsed(parse, calls)) <==>
            forall i :: 0 <= i < |calls| ==> parse(TextOf(calls[i].arguments)).Some?
  {
    var raw := Parsed(parse, calls);
    assert forall i :: 0 <= i < |calls| ==> raw[i].args == parse(TextOf(calls[i].arguments));
  }

  lemma AnswerDispatches(s: AgentLoop.State, content: string, raw: seq<AgentLoop.RawCall>)
    ensures var queue := AgentLoop.AfterAnswer(s, content, raw).executionQueue;
            if raw != [] && AgentLoop.AllParse(raw)
            then queue == s.executionQueue + [AgentLoop.Execution(AgentLoop.Payload(raw), None)]
            else queue == s.executionQueue
  {
  }

  lemma {:induction false} PayloadOf(raw: seq<AgentLoop.RawCall>)
    requires AgentLoop.AllParse(raw)
    ensures |AgentLoop.Payload(raw)| == |raw|
    ensures forall i :: 0 <= i < |raw| ==>
              AgentLoop.Payload(raw)[i] == AgentLoop.Call(raw[i].id, raw[i].name, raw[i].args.value)
  {
    if raw != [] {
      PayloadOf(raw[..|raw| - 1]);
    }
  }
}
