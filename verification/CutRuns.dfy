/**
 * A request's events cut at any event: what the rebuilt turn has of the intended one,
 * and which two cuts make the reader invent something.
 */
module CutRuns {
  import opened Octets
  import opened Protocol
  import opened Streamers
  import Adapter
  import opened AdapterRuns
  import opened Reassembler
  import ReassemblyLaws
  import FlushOrder
  import opened RoundTrip

  // ------------------------------------------------------------------ first parts

  /** The cut falls between a tool_use start and an input the default would not give back. */
  predicate CutsInput(part: Trace, full: Trace) {
    |part| < |full| && match full[|part|]
                       case BlockDelta(_, InputDelta(json)) => json != "" && json != EMPTY_TOOL_INPUT
                       case _ => false
  }

  /** The cut falls between a tool_result start and its non-empty content. */
  predicate CutsOutput(part: Trace, full: Trace) {
    |part| < |full| && match full[|part|]
                       case BlockDelta(_, ResultDelta(text)) => text != ""
                       case _ => false
  }

  /** The same kind of content, perhaps cut short. */
  predicate Shortened(x: Item, y: Item) {
    match (x, y)
    case (TextItem(a), TextItem(b)) => a <= b
    case (ThinkingItem(a), ThinkingItem(b)) => a <= b
    case _ => x == y
  }

  /** The first items of a timeline, the last of them perhaps cut short. */
  predicate FirstItems(t: seq<Item>, s: seq<Item>) {
    t != [] ==> |t| <= |s| && t[..|t| - 1] <= s && Shortened(t[|t| - 1], s[|t| - 1])
  }

  /** The first calls, the last of them with the default for its input. */
  predicate LastInputLost(t: seq<ToolCall>, s: seq<ToolCall>) {
    0 < |t| <= |s| && t == s[..|t| - 1] + [s[|t| - 1].(params := EMPTY_TOOL_INPUT)]
  }

  /** The first executions, the last of them with an empty result. */
  predicate LastOutputLost(t: seq<Execution>, s: seq<Execution>) {
    0 < |t| <= |s| && t == s[..|t| - 1] + [s[|t| - 1].(result := "")]
  }

  /** What `r` has of the tools, executions and timeline of `s`. */
  predicate CutOf(r: Parsed, s: Parsed, cutsInput: bool, cutsOutput: bool) {
    && (r.tools <= s.tools <==> !cutsInput)
    && (cutsInput ==> LastInputLost(r.tools, s.tools))
    && (r.executions <= s.executions <==> !cutsOutput)
    && (cutsOutput ==> LastOutputLost(r.executions, s.executions))
    && (FirstItems(r.timeline, s.timeline) <==> !cutsOutput)
  }

  /** The parts of a turn that only ever grow. */
  predicate Within(a: Parsed, b: Parsed) {
    a.tools <= b.tools && a.executions <= b.executions && a.timeline <= b.timeline
  }

  lemma BlockGrows(s: State, b: WireBlock)
    ensures Within(s.result, BlockEffect(s, b).result)
  {
  }

  lemma {:induction false} FoldGrows(s: State, blocks: seq<WireBlock>)
    ensures Within(s.result, FoldBlocks(s, blocks).result)
    decreases blocks
  {
    hide BlockEffect;
    if blocks != [] {
      BlockGrows(s, blocks[0]);
      FoldGrows(BlockEffect(s, blocks[0]), blocks[1..]);
    }
  }

  lemma FirstItemsOfPrefix(t: seq<Item>, s: seq<Item>)
    requires t <= s
    ensures FirstItems(t, s)
  {
  }

  // -------------------------------------------------------------- cuts inside a block

  /** Between blocks nothing is in flight and nothing is lost. */
  lemma QuietCut(s: State, to: seq<int>, ro: seq<int>, whole: Parsed)
    requires Quiescent(s) && IsFlush(s, to, ro) && Within(s.result, whole)
    ensures CutOf(Finalized(s, to, ro), whole, false, false)
  {
    hide Finalized, Quiescent, IsFlush, FirstItems;
    var r := Finalized(s, to, ro);
    QuiescentResult(s, r, to, ro);
    FirstItemsOfPrefix(r.timeline, whole.timeline);
  }

  lemma NoKey<T>(m: map<int, T>, order: seq<int>)
    requires m == map[] && IsOrder(order, m)
    ensures order == []
  {
    if order != [] {
      var i := SomeKey(m, order);
      assert false;
    }
  }

  lemma SomeKey<T>(m: map<int, T>, order: seq<int>) returns (i: int)
    requires order != [] && IsOrder(order, m)
    ensures i in m
  {
    i := order[0];
  }

  lemma OneKey<T>(m: map<int, T>, i: int, order: seq<int>)
    requires m.Keys == {i} && IsOrder(order, m)
    ensures order == [i]
  {
    assert i in order;
    FlushOrder.InitIsOrder(m, order);
    assert m - {i} == map[];
    NoKey(m - {i}, order[..|order| - 1]);
  }

  /** Closing what is not open adds nothing. */
  lemma QuietClose(s: State)
    requires s.curText == [] && s.curThinking == []
    ensures CloseThinking(CloseText(s)).result == s.result
  {
    ReassemblyLaws.EmptyConcat();
  }

  lemma OneParts(part: string)
    ensures Concat([part]) == part && Concat<char>([]) == ""
  {
    assert Concat([part]) == part + Concat([part][1..]);
  }

  /** Only the tool at `index` is in flight. */
  lemma FlushOneTool(s: State, index: int, to: seq<int>, ro: seq<int>)
    requires s.curText == [] && s.curThinking == [] && s.tools.Keys == {index} && s.results == map[]
    requires IsFlush(s, to, ro)
    ensures
      var r := Finalized(s, to, ro);
      && r.tools == s.result.tools + [FinishedCall(s.tools[index])]
      && r.executions == s.result.executions && r.timeline == s.result.timeline
  {
    QuietClose(s);
    OneKey(s.tools, index, to);
    NoKey(s.results, ro);
    hide CloseText, CloseThinking, FinishedCall;
    assert FlushTools(s.result, s.tools, [index][..0]) == s.result;
    assert FlushTools(s.result, s.tools, [index]) == AddTool(s.result, s.tools[index]);
  }

  /** Only the result at `index` is in flight. */
  lemma FlushOneResult(s: State, index: int, to: seq<int>, ro: seq<int>)
    requires s.curText == [] && s.curThinking == [] && s.tools == map[] && s.results.Keys == {index}
    requires IsFlush(s, to, ro)
    ensures
      var r, a := Finalized(s, to, ro), AddResult(s.result, s.results[index]);
      r.tools == a.tools && r.executions == a.executions && r.timeline == a.timeline
  {
    QuietClose(s);
    OneKey(s.results, index, ro);
    NoKey(s.tools, to);
    hide CloseText, CloseThinking, AddResult;
    assert FlushResults(s.result, s.results, [index][..0]) == s.result;
    assert FlushResults(s.result, s.results, [index]) == AddResult(s.result, s.results[index]);
  }

  lemma UseInFlight(s: State, index: nat, c: Call, j: nat)
    requires Quiescent(s) && 0 < j < 3
    ensures
      var u := Run(s, BlockEvents(Use(index, c))[..j]);
      && u == s.(tools := u.tools, result := s.result.(toolNames := u.result.toolNames))
      && u.tools == map[index := InflightTool(c.name, c.id, if j == 1 then [] else [c.arguments])]
  {
    hide Run;
    RunFirst(s, BlockEvents(Use(index, c)), j);
    QuietClose(s);
    assert [] + [c.arguments] == [c.arguments];
  }

  lemma OutcomeInFlight(s: State, index: nat, id: string, o: Adapter.ToolOutput, j: nat)
    requires Quiescent(s) && 0 < j < 3
    ensures
      var u := Run(s, BlockEvents(Outcome(index, id, o))[..j]);
      u == s.(results := map[index := InflightResult(id, if j == 1 then [] else [o.content])])
  {
    hide Run;
    RunFirst(s, BlockEvents(Outcome(index, id, o)), j);
    QuietClose(s);
    assert [] + [o.content] == [o.content];
  }

  lemma RunFirst(s: State, e: Trace, j: nat)
    requires 0 < j < 3 <= |e|
    ensures Run(s, e[..j]) == if j == 1 then Handle(s, e[0]) else Handle(Handle(s, e[0]), e[1])
  {
    hide Handle;
    assert e[..1] == [e[0]] + [] && e[..2] == [e[0]] + [e[1]] && [e[1]] == [e[1]] + [];
    RunCons(s, e[0], []);
    RunCons(s, e[0], [e[1]]);
    RunCons(Handle(s, e[0]), e[1], []);
  }

  lemma {:induction false} PartDeltasPrefix(kind: Kind, index: nat, parts: seq<string>, k: nat)
    requires k <= |parts|
    ensures |PartDeltas(kind, index, parts)| == |parts|
    ensures PartDeltas(kind, index, parts)[..k] == PartDeltas(kind, index, parts[..k])
    ensures k < |parts| ==> PartDeltas(kind, index, parts)[k] == BlockDelta(index, KindDelta(kind, parts[k]))
    decreases parts
  {
    if parts != [] {
      PartDeltasPrefix(kind, index, parts[1..], if k == 0 then 0 else k - 1);
      if k > 0 {
        assert parts[..k][1..] == parts[1..][..k - 1];
      }
    }
  }

  lemma ConcatPrefix(parts: seq<string>, k: nat)
    requires k <= |parts|
    ensures Concat(parts[..k]) <= Concat(parts)
  {
    assert parts == parts[..k] + parts[k..];
    ConcatAppend(parts[..k], parts[k..]);
  }

  function ContentItem(kind: Kind, text: string): Item {
    if kind == Text then TextItem(text) else ThinkingItem(text)
  }

  lemma CutContent(s: State, kind: Kind, index: nat, parts: seq<string>, j: nat, to: seq<int>, ro: seq<int>)
    requires Quiescent(s) && 0 < j <= |parts| + 1 && |BlockEvents(Content(kind, index, parts))| > j
    requires IsFlush(Run(s, BlockEvents(Content(kind, index, parts))[..j]), to, ro)
    ensures
      var r := Finalized(Run(s, BlockEvents(Content(kind, index, parts))[..j]), to, ro);
      var text := Concat(parts[..j - 1]);
      && r.tools == s.result.tools && r.executions == s.result.executions
      && r.timeline == s.result.timeline + if text == "" then [] else [ContentItem(kind, text)]
  {
    hide Concat, PartDeltas;
    var e := BlockEvents(Content(kind, index, parts));
    var start, first := BlockStart(index, KindBlock(kind)), parts[..j - 1];
    ReassemblyLaws.EmptyConcat();
    PartDeltasPrefix(kind, index, parts, j - 1);
    assert e[..j] == [start] + PartDeltas(kind, index, first);
    RunCons(s, start, PartDeltas(kind, index, first));
    var open := Handle(s, start);
    assert open == if kind == Text then s.(textIndex := index) else s.(thinkingIndex := index);
    RunParts(open, kind, index, first);
    assert [] + first == first;
    var u := Run(s, e[..j]);
    NoKey(u.tools, to);
    NoKey(u.results, ro);
  }

  predicate CutsInputAt(b: WireBlock, j: nat) {
    b.Use? && j == 1 && b.call.arguments != "" && b.call.arguments != EMPTY_TOOL_INPUT
  }

  predicate CutsOutputAt(b: WireBlock, j: nat) {
    b.Outcome? && j == 1 && b.output.content != ""
  }

  lemma PrefixOfSnoc<T>(a: seq<T>, x: T, y: T, whole: seq<T>)
    requires a + [x] <= whole
    ensures a + [y] <= whole <==> x == y
    ensures |whole| > |a| && whole[..|a|] == a && whole[|a|] == x
  {
    assert (a + [x])[|a|] == x;
    assert whole[..|a|] == (a + [x])[..|a|];
    assert (a + [y])[|a|] == y;
  }

  lemma FirstItemsSnoc(a: seq<Item>, x: Item, y: Item, whole: seq<Item>)
    requires a + [x] <= whole
    ensures FirstItems(a + [y], whole) <==> Shortened(y, x)
  {
    PrefixOfSnoc(a, x, y, whole);
  }

  lemma UseCutOf(s: State, index: nat, c: Call, j: nat, to: seq<int>, ro: seq<int>, whole: Parsed)
    requires Quiescent(s) && 0 < j < 3
    requires IsFlush(Run(s, BlockEvents(Use(index, c))[..j]), to, ro)
    requires Within(BlockEffect(s, Use(index, c)).result, whole)
    ensures
      var b := Use(index, c);
      CutOf(Finalized(Run(s, BlockEvents(b)[..j]), to, ro), whole, CutsInputAt(b, j), false)
  {
    var u := Run(s, BlockEvents(Use(index, c))[..j]);
    hide Finalized, Run, IsFlush, FirstItems, BlockEvents, Concat;
    UseInFlight(s, index, c, j);
    FlushOneTool(u, index, to, ro);
    OneParts(c.arguments);
    PrefixOfSnoc(s.result.tools, CallOf(c), FinishedCall(u.tools[index]), whole.tools);
    FirstItemsOfPrefix(s.result.timeline, whole.timeline);
  }

  lemma OutcomeCutOf(
      s: State, index: nat, id: string, o: Adapter.ToolOutput, j: nat, to: seq<int>, ro: seq<int>, whole: Parsed)
    requires Quiescent(s) && 0 < j < 3 && FirstMatch(s.result.tools, id).Some?
    requires IsFlush(Run(s, BlockEvents(Outcome(index, id, o))[..j]), to, ro)
    requires Within(BlockEffect(s, Outcome(index, id, o)).result, whole)
    ensures
      var b := Outcome(index, id, o);
      CutOf(Finalized(Run(s, BlockEvents(b)[..j]), to, ro), whole, false, CutsOutputAt(b, j))
  {
    var u := Run(s, BlockEvents(Outcome(index, id, o))[..j]);
    hide Finalized, Run, IsFlush, FirstMatch, FirstItems, BlockEvents, Concat;
    OutcomeInFlight(s, index, id, o, j);
    FlushOneResult(u, index, to, ro);
    OneParts(o.content);
    var call := s.result.tools[FirstMatch(s.result.tools, id).value];
    var exec := Executed(call, InflightResult(id, [o.content]));
    var got := Executed(call, u.results[index]);
    PrefixOfSnoc(s.result.executions, exec, got, whole.executions);
    FirstItemsSnoc(s.result.timeline, ToolItem(exec), ToolItem(got), whole.timeline);
  }

  lemma ContentCutOf(
      s: State, kind: Kind, index: nat, parts: seq<string>, j: nat, to: seq<int>, ro: seq<int>, whole: Parsed)
    requires Quiescent(s) && 0 < j <= |parts| + 1 && |BlockEvents(Content(kind, index, parts))| > j
    requires IsFlush(Run(s, BlockEvents(Content(kind, index, parts))[..j]), to, ro)
    requires Within(BlockEffect(s, Content(kind, index, parts)).result, whole)
    ensures CutOf(Finalized(Run(s, BlockEvents(Content(kind, index, parts))[..j]), to, ro), whole, false, false)
  {
    hide Finalized, Run, IsFlush, FirstItems, BlockEvents, Concat, Quiescent;
    CutContent(s, kind, index, parts, j, to, ro);
    var text, all, before := Concat(parts[..j - 1]), Concat(parts), s.result.timeline;
    ConcatPrefix(parts, j - 1);
    assert before + [ContentItem(kind, all)] <= whole.timeline;
    if text == "" {
      assert before + [] == before;
      FirstItemsOfPrefix(before, whole.timeline);
    } else {
      FirstItemsSnoc(before, ContentItem(kind, all), ContentItem(kind, text), whole.timeline);
    }
  }

  /** A cut inside a block, seen from the turn that block belongs to. */
  lemma BlockCutOf(s: State, b: WireBlock, j: nat, to: seq<int>, ro: seq<int>, whole: Parsed)
    requires Quiescent(s) && Sturdy(b) && j < |BlockEvents(b)|
    requires b.Outcome? ==> FirstMatch(s.result.tools, b.id).Some?
    requires IsFlush(Run(s, BlockEvents(b)[..j]), to, ro)
    requires Within(BlockEffect(s, b).result, whole)
    ensures CutOf(Finalized(Run(s, BlockEvents(b)[..j]), to, ro), whole, CutsInputAt(b, j), CutsOutputAt(b, j))
  {
    hide CutOf, Finalized, Quiescent, BlockEffect, FirstMatch, IsFlush, Run;
    if j == 0 {
      BlockGrows(s, b);
      RunNothing(s, BlockEvents(b));
      WithinThen(s.result, BlockEffect(s, b).result, whole);
      QuietCut(s, to, ro, whole);
    } else {
      match b
      case Content(kind, index, parts) =>
        PartDeltasPrefix(kind, index, parts, 0);
        ContentCutOf(s, kind, index, parts, j, to, ro, whole);
      case Use(index, c) => UseCutOf(s, index, c, j, to, ro, whole);
      case Outcome(index, id, o) => OutcomeCutOf(s, index, id, o, j, to, ro, whole);
    }
  }

  lemma RunNothing(s: State, e: Trace)
    ensures Run(s, e[..0]) == s
  {
  }

  lemma WithinThen(a: Parsed, b: Parsed, c: Parsed)
    requires Within(a, b) && Within(b, c)
    ensures Within(a, c)
  {
  }

  // ------------------------------------------------------------------ cuts of a run

  /** A strict first part of a list of blocks: whole blocks and the beginning of the next. */
  lemma {:induction false} SplitBlocks(blocks: seq<WireBlock>, part: Trace) returns (n: nat, j: nat)
    requires part <= AllEvents(blocks) && part != AllEvents(blocks)
    ensures n < |blocks| && j < |BlockEvents(blocks[n])|
    ensures part == AllEvents(blocks[..n]) + BlockEvents(blocks[n])[..j]
    ensures AllEvents(blocks)[|part|] == BlockEvents(blocks[n])[j]
    decreases blocks
  {
    hide BlockEvents;
    if blocks == [] {
      assert false;
    } else {
      var first, rest := BlockEvents(blocks[0]), AllEvents(blocks[1..]);
      if |part| < |first| {
        n, j := 0, |part|;
        assert blocks[..0] == [] && AllEvents(blocks[..0]) == [];
        assert part == (first + rest)[..j] == first[..j];
      } else {
        var later := part[|first|..];
        assert part == first + later && rest == (first + rest)[|first|..];
        n, j := SplitBlocks(blocks[1..], later);
        n := n + 1;
        assert blocks[..n][1..] == blocks[1..][..n - 1];
        assert AllEvents(blocks[..n]) == first + AllEvents(blocks[1..][..n - 1]);
        Assoc(first, AllEvents(blocks[1..][..n - 1]), BlockEvents(blocks[n])[..j]);
      }
    }
  }

  /** The event at a cut inside a block tells the two cuts that lose something. */
  lemma CutEvent(b: WireBlock, j: nat)
    requires j < |BlockEvents(b)|
    ensures CutsInputAt(b, j) <==> match BlockEvents(b)[j]
                                   case BlockDelta(_, InputDelta(json)) => json != "" && json != EMPTY_TOOL_INPUT
                                   case _ => false
    ensures CutsOutputAt(b, j) <==> match BlockEvents(b)[j]
                                    case BlockDelta(_, ResultDelta(text)) => text != ""
                                    case _ => false
  {
    if b.Content? {
      PartDeltasPrefix(b.kind, b.index, b.parts, 0);
      if 0 < j <= |b.parts| {
        PartDeltasPrefix(b.kind, b.index, b.parts, j - 1);
      }
    }
  }

  /** A cut among the events of a list of blocks. */
  lemma BlocksCutOf(s: State, blocks: seq<WireBlock>, part: Trace, to: seq<int>, ro: seq<int>)
    requires Quiescent(s) && Answered(s, blocks) && forall k :: 0 <= k < |blocks| ==> Sturdy(blocks[k])
    requires part <= AllEvents(blocks) && IsFlush(Run(s, part), to, ro)
    ensures
      var full := AllEvents(blocks);
      CutOf(Finalized(Run(s, part), to, ro), FoldBlocks(s, blocks).result, CutsInput(part, full), CutsOutput(part, full))
  {
    hide CutOf, Finalized, Quiescent, BlockEffect, FirstMatch, IsFlush, Run, Within, AllEvents, BlockEvents, Sturdy,
         FoldBlocks, CutsInputAt, CutsOutputAt;
    if part == AllEvents(blocks) {
      RunAllBlocks(s, blocks);
      NothingMore(FoldBlocks(s, blocks).result);
      QuietCut(FoldBlocks(s, blocks), to, ro, FoldBlocks(s, blocks).result);
    } else {
      var n, j := SplitBlocks(blocks, part);
      var before, b, rest := blocks[..n], blocks[n], blocks[n..];
      var t := FoldBlocks(s, before);
      assert blocks == before + rest && rest[0] == b;
      RunAllBlocks(s, before);
      RunAppend(s, AllEvents(before), BlockEvents(b)[..j]);
      AnsweredAppend(s, before, rest);
      FoldAppend(s, before, rest);
      FoldFirst(t, rest);
      FoldGrows(BlockEffect(t, b), rest[1..]);
      BlockCutOf(t, b, j, to, ro, FoldBlocks(s, blocks).result);
      CutEvent(b, j);
    }
  }

  lemma NothingMore(a: Parsed)
    ensures Within(a, a)
  {
  }

  lemma FoldFirst(s: State, blocks: seq<WireBlock>)
    requires blocks != []
    ensures FoldBlocks(s, blocks) == FoldBlocks(BlockEffect(s, blocks[0]), blocks[1..])
  {
  }

  /** The state a reassembler folds a request's blocks from. */
  function Opened(streamID: string): State {
    INITIAL.(result := INITIAL.result.(streamID := streamID))
  }

  /** The intended turn is what the blocks of the request come to. */
  lemma IntendedIsFold(streamID: string, turns: seq<Turn>)
    requires Orderly(turns) && DistinctCalls(AllCalls(turns))
    ensures
      var f, i := FoldBlocks(Opened(streamID), RunBlocks(0, turns)).result, Intended(streamID, turns);
      f.tools == i.tools && f.executions == i.executions && f.timeline == i.timeline
    ensures
      var blocks := RunBlocks(0, turns);
      Answered(Opened(streamID), blocks) && forall k :: 0 <= k < |blocks| ==> Sturdy(blocks[k])
  {
    hide FoldBlocks, RunYield, RunBlocks, AllCalls, DistinctCalls, Answered, Sturdy, Concat, NamesOf, ReturnsFollowStarts;
    var y := RunYield(turns);
    RunAdds(Opened(streamID), AllCalls(turns), 0, turns);
    assert [] + y.tools == y.tools && [] + y.executions == y.executions && [] + y.timeline == y.timeline;
  }

  /** Before the first block is complete, in the preamble, there is nothing yet. */
  lemma PreambleCut(s: State, to: seq<int>, ro: seq<int>, whole: Parsed)
    requires s == INITIAL || exists id :: s == Opened(id)
    requires IsFlush(s, to, ro)
    ensures CutOf(Finalized(s, to, ro), whole, false, false)
  {
    QuietCut(s, to, ro, whole);
  }

  lemma SameWhole(r: Parsed, a: Parsed, b: Parsed, x: bool, y: bool)
    requires a.tools == b.tools && a.executions == b.executions && a.timeline == b.timeline
    ensures CutOf(r, a, x, y) <==> CutOf(r, b, x, y)
  {
  }

  /** The cut loses nothing. */
  predicate CleanCut(part: Trace, full: Trace) {
    !CutsInput(part, full) && !CutsOutput(part, full)
  }

  /** Where a first part of a request's events ends. */
  lemma CutPlaces(streamID: string, body: Trace, stopReason: string, outputTokens: int, part: Trace)
    requires part <= PreambleEvents(streamID) + body + EpilogueEvents(stopReason, outputTokens)
    ensures
      var pre, delta := PreambleEvents(streamID), MessageDelta(stopReason, outputTokens);
      var full := pre + body + EpilogueEvents(stopReason, outputTokens);
      || ((part == [] || part == [MessageStart(streamID)]) && CleanCut(part, full))
      || (pre <= part && part == pre + part[2..] && part[2..] <= body
          && (CutsInput(part, full) <==> CutsInput(part[2..], body))
          && (CutsOutput(part, full) <==> CutsOutput(part[2..], body)))
      || (part == pre + body + [delta] && CleanCut(part, full))
      || part == full
  {
    var pre, post := PreambleEvents(streamID), EpilogueEvents(stopReason, outputTokens);
    var full := pre + body + post;
    assert forall k :: 2 <= k < 2 + |body| ==> full[k] == body[k - 2];
    assert full[..2] == pre && full[2 + |body|] == post[0];
    if 2 <= |part| <= 2 + |body| {
      assert part == full[..|part|];
      assert part[..2] == pre && part[2..] == body[..|part| - 2];
    } else if |part| == 3 + |body| {
      assert full[..|part|] == pre + body + [post[0]];
    }
  }

  lemma OpenPart(part: Trace, failure: string)
    requires MessageStop !in part
    ensures
      var s := Run(INITIAL, part);
      EndState(part, failure) == s.(result := s.result.(error := failure))
  {
    hide Run;
    HandledIs(part, part);
  }

  /** An error of the reader changes the error of the turn and nothing else. */
  lemma ErrorIsApart(s: State, failure: string, to: seq<int>, ro: seq<int>)
    requires IsFlush(s, to, ro)
    ensures
      var t := s.(result := s.result.(error := failure));
      IsFlush(t, to, ro) && Finalized(t, to, ro) == Finalized(s, to, ro).(error := failure)
  {
    hide Finalized, IsOrder, FlushOrder.AfterTools, ReassemblyLaws.AllMatched, ReassemblyLaws.Values,
         ReassemblyLaws.Somes, ReassemblyLaws.Shown, Concat;
    var t := s.(result := s.result.(error := failure));
    FlushOrder.FlushedOutput(s, to, ro);
    FlushOrder.FlushedOutput(t, to, ro);
    SameLookups(s, t, to);
  }

  lemma SameLookups(s: State, t: State, to: seq<int>)
    requires s.result.tools == t.result.tools && s.tools == t.tools && forall k :: 0 <= k < |to| ==> to[k] in s.tools
    ensures FlushOrder.AfterTools(s, to) == FlushOrder.AfterTools(t, to)
  {
  }

  lemma RunOpening(streamID: string, rest: Trace)
    ensures Run(INITIAL, PreambleEvents(streamID) + rest) == Run(Opened(streamID), rest)
    ensures Run(INITIAL, []) == INITIAL && Run(INITIAL, [MessageStart(streamID)]) == Opened(streamID)
    ensures Quiescent(Opened(streamID))
  {
    RunPreamble(streamID);
    RunAppend(INITIAL, PreambleEvents(streamID), rest);
    assert [MessageStart(streamID)] == [MessageStart(streamID)] + [];
    RunCons(INITIAL, MessageStart(streamID), []);
  }

  /** The message delta changes nothing. */
  lemma RunToDelta(streamID: string, blocks: seq<WireBlock>, stopReason: string, outputTokens: int)
    requires forall k :: 0 <= k < |blocks| ==> Sturdy(blocks[k])
    ensures
      var f := FoldBlocks(Opened(streamID), blocks);
      && Run(INITIAL, PreambleEvents(streamID) + AllEvents(blocks) + [MessageDelta(stopReason, outputTokens)]) == f
      && Quiescent(f)
  {
    hide Run, AllEvents, FoldBlocks, Sturdy;
    var pre, body, delta := PreambleEvents(streamID), AllEvents(blocks), MessageDelta(stopReason, outputTokens);
    RunOpening(streamID, body);
    RunSnoc(INITIAL, pre + body, delta);
    RunAllBlocks(Opened(streamID), blocks);
  }

  lemma WholeCutOf(r: Parsed)
    ensures CutOf(r, r, false, false)
  {
    FirstItemsOfPrefix(r.timeline, r.timeline);
  }

  /** Before the message stops, a first part of a request rebuilds to a first part of its turn. */
  lemma OpenCutOf(
      streamID: string, turns: seq<Turn>, stopReason: string, outputTokens: int, part: Trace,
      to: seq<int>, ro: seq<int>)
    requires Orderly(turns) && DistinctCalls(AllCalls(turns))
    requires part <= Emitted(streamID, turns, stopReason, outputTokens) && MessageStop !in part
    requires IsFlush(Run(INITIAL, part), to, ro)
    ensures
      var full := Emitted(streamID, turns, stopReason, outputTokens);
      CutOf(Finalized(Run(INITIAL, part), to, ro), Intended(streamID, turns), CutsInput(part, full), CutsOutput(part, full))
  {
    hide CutOf, Finalized, IsFlush, Run, AllEvents, RunBlocks, RunYield, FoldBlocks, Answered, Sturdy, Quiescent,
         ReturnsFollowStarts, DistinctCalls, AllCalls, Intended, Adapter.RespondAll, CutsInput, CutsOutput;
    var s, blocks, whole := Opened(streamID), RunBlocks(0, turns), Intended(streamID, turns);
    var pre, body, rest := PreambleEvents(streamID), AllEvents(blocks), if |part| < 2 then [] else part[2..];
    var r, f := Finalized(Run(INITIAL, part), to, ro), FoldBlocks(s, blocks);
    RunEmission(Adapter.INITIAL, turns, 0);
    CutPlaces(streamID, body, stopReason, outputTokens, part);
    IntendedIsFold(streamID, turns);
    RunOpening(streamID, rest);
    if |part| < 2 {
      PreambleCut(Run(INITIAL, part), to, ro, whole);
    } else if part == pre + rest && rest <= body {
      BlocksCutOf(s, blocks, rest, to, ro);
      SameWhole(r, f.result, whole, CutsInput(rest, body), CutsOutput(rest, body));
    } else {
      RunToDelta(streamID, blocks, stopReason, outputTokens);
      NothingMore(f.result);
      QuietCut(f, to, ro, f.result);
      SameWhole(r, f.result, whole, false, false);
    }
  }

  /**
   * The exact loss. From a first part of a request's events the tools rebuilt are the
   * first tools of the intended turn unless the cut falls between a tool_use start and an
   * input that is neither empty nor the default; then the last of them has the default
   * for its input. The executions and the timeline are the first ones unless the cut falls
   * between a tool_result start and a non-empty content; then the last execution is empty.
   */
  lemma CutRunsLose(
      streamID: string, turns: seq<Turn>, stopReason: string, outputTokens: int, part: Trace, failure: string,
      r: Parsed)
    requires Orderly(turns) && DistinctCalls(AllCalls(turns))
    requires part <= Emitted(streamID, turns, stopReason, outputTokens) && Reassembles(part, failure, r)
    ensures
      var full := Emitted(streamID, turns, stopReason, outputTokens);
      CutOf(r, Intended(streamID, turns), CutsInput(part, full), CutsOutput(part, full))
  {
    hide CutOf, Finalized, IsFlush, EndState, Run, DistinctCalls, Intended, ReturnsFollowStarts;
    var full := Emitted(streamID, turns, stopReason, outputTokens);
    if part == full {
      EmitReassembleRoundTrip(streamID, turns, stopReason, outputTokens, failure, r);
      WholeCutOf(r);
    } else {
      StopIsLast(streamID, turns, stopReason, outputTokens, part);
      OpenPart(part, failure);
      var to, ro :| IsFlush(EndState(part, failure), to, ro) && r == Finalized(EndState(part, failure), to, ro);
      SameInFlight(part, failure, to, ro);
      ErrorIsApart(Run(INITIAL, part), failure, to, ro);
      OpenCutOf(streamID, turns, stopReason, outputTokens, part, to, ro);
      var open := Finalized(Run(INITIAL, part), to, ro);
      SameParts(open, r, Intended(streamID, turns), CutsInput(part, full), CutsOutput(part, full));
    }
  }

  lemma SameInFlight(part: Trace, failure: string, to: seq<int>, ro: seq<int>)
    requires MessageStop !in part && IsFlush(EndState(part, failure), to, ro)
    ensures IsFlush(Run(INITIAL, part), to, ro)
  {
    hide Run;
    OpenPart(part, failure);
  }

  lemma SameParts(r: Parsed, q: Parsed, whole: Parsed, x: bool, y: bool)
    requires r.tools == q.tools && r.executions == q.executions && r.timeline == q.timeline
    ensures CutOf(r, whole, x, y) <==> CutOf(q, whole, x, y)
  {
  }

  lemma StopIsLast(streamID: string, turns: seq<Turn>, stopReason: string, outputTokens: int, part: Trace)
    requires Orderly(turns)
    requires part <= Emitted(streamID, turns, stopReason, outputTokens) && part != Emitted(streamID, turns, stopReason, outputTokens)
    ensures MessageStop !in part
  {
    hide AllEvents, RunBlocks, Adapter.RespondAll, RunCallbacks;
    var full := Emitted(streamID, turns, stopReason, outputTokens);
    RunEmission(Adapter.INITIAL, turns, 0);
    OnlyBlockEvents(RunBlocks(0, turns));
    var h := PreambleEvents(streamID) + AllEvents(RunBlocks(0, turns)) + [MessageDelta(stopReason, outputTokens)];
    assert full == h + [MessageStop];
    assert part == full[..|part|] == h[..|part|];
  }
}
