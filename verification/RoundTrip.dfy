/** Emit, then rebuild: what a reassembler makes of a whole adapter run. */
module RoundTrip {
  import opened Octets
  import opened Protocol
  import opened Streamers
  import Adapter
  import opened AdapterRuns
  import opened Reassembler
  import ReassemblyLaws

  // --------------------------------------------------------------- running in parts

  lemma {:induction false} RunAppend(s: State, a: seq<Event>, b: seq<Event>)
    ensures Run(s, a + b) == Run(Run(s, a), b)
  {
    hide Handle;
    if b == [] {
      assert a + b == a;
    } else {
      var c, e := b[..|b| - 1], b[|b| - 1];
      RunAppend(s, a, c);
      assert (a + b)[..|a + b| - 1] == a + c;
    }
  }

  lemma RunCons(s: State, e: Event, rest: seq<Event>)
    ensures Run(s, [e] + rest) == Run(Handle(s, e), rest)
  {
    hide Handle;
    RunAppend(s, [e], rest);
    assert [e][..0] == [] && Run(s, []) == s;
  }

  // ------------------------------------------------------------ one complete block

  /** Nothing open and nothing in flight. */
  predicate Quiescent(s: State) {
    && s.curText == [] && s.curThinking == []
    && s.tools == map[] && s.results == map[]
    && s.textIndex == NONE && s.thinkingIndex == NONE
  }

  function CallOf(c: Call): ToolCall {
    ToolCall(c.name, if c.arguments == "" then EMPTY_TOOL_INPUT else c.arguments, c.id)
  }

  function BlockEffect(s: State, b: WireBlock): State {
    var r := s.result;
    match b
    case Content(Text, _, parts) =>
      s.(allText := s.allText + [Concat(parts)], result := r.(timeline := r.timeline + [TextItem(Concat(parts))]))
    case Content(Thinking, _, parts) =>
      s.(allThinking := s.allThinking + [Concat(parts)],
         result := r.(timeline := r.timeline + [ThinkingItem(Concat(parts))]))
    case Use(_, c) =>
      s.(result := r.(toolNames := r.toolNames + [c.name], tools := r.tools + [CallOf(c)]))
    case Outcome(_, id, o) =>
      s.(result := AddResult(r, InflightResult(id, [o.content])))
  }

  lemma {:induction false} RunParts(s: State, kind: Kind, index: nat, parts: seq<string>)
    requires kind == Thinking ==> s.thinkingIndex == index
    ensures Run(s, PartDeltas(kind, index, parts)) ==
              if kind == Text then s.(curText := s.curText + parts) else s.(curThinking := s.curThinking + parts)
    decreases parts
  {
    if parts == [] {
      assert s.curText + [] == s.curText && s.curThinking + [] == s.curThinking;
    } else {
      var e := BlockDelta(index, KindDelta(kind, parts[0]));
      RunCons(s, e, PartDeltas(kind, index, parts[1..]));
      RunParts(Handle(s, e), kind, index, parts[1..]);
      assert parts == [parts[0]] + parts[1..];
      Assoc(s.curText, [parts[0]], parts[1..]);
      Assoc(s.curThinking, [parts[0]], parts[1..]);
    }
  }

  lemma RunThree(s: State, a: Event, b: Event, c: Event)
    ensures Run(s, [a, b, c]) == Handle(Handle(Handle(s, a), b), c)
  {
    hide Handle;
    assert [a, b, c] == [a] + [b, c] && [b, c] == [b] + [c] && [c] == [c] + [];
    RunCons(s, a, [b, c]);
    RunCons(Handle(s, a), b, [c]);
    RunCons(Handle(Handle(s, a), b), c, []);
  }

  lemma RunUse(s: State, index: nat, c: Call)
    requires Quiescent(s)
    ensures Run(s, BlockEvents(Use(index, c))) == BlockEffect(s, Use(index, c))
  {
    var e := BlockEvents(Use(index, c));
    RunThree(s, e[0], e[1], e[2]);
    assert e == [e[0], e[1], e[2]];
    ReassemblyLaws.EmptyConcat();
    assert Concat([c.arguments]) == c.arguments + Concat([c.arguments][1..]) == c.arguments;
    var started := InflightTool(c.name, c.id, []);
    assert Handle(s, e[0]).tools == map[index := started] && started.params + [c.arguments] == [c.arguments];
    var t := Handle(Handle(s, e[0]), e[1]);
    assert t.tools == map[index := InflightTool(c.name, c.id, [c.arguments])];
    assert t.tools - {index} == map[];
    assert FinishedCall(t.tools[index]) == CallOf(c);
  }

  lemma RunOutcome(s: State, index: nat, id: string, o: Adapter.ToolOutput)
    requires Quiescent(s)
    ensures Run(s, BlockEvents(Outcome(index, id, o))) == BlockEffect(s, Outcome(index, id, o))
  {
    var e := BlockEvents(Outcome(index, id, o));
    RunThree(s, e[0], e[1], e[2]);
    assert e == [e[0], e[1], e[2]];
    ReassemblyLaws.EmptyConcat();
    var started := InflightResult(id, []);
    assert Handle(s, e[0]).results == map[index := started] && started.parts + [o.content] == [o.content];
    var t := Handle(Handle(s, e[0]), e[1]);
    assert t.results == map[index := InflightResult(id, [o.content])];
    assert t.results - {index} == map[];
  }

  lemma ConcatNonEmpty(parts: seq<string>)
    requires parts != [] && "" !in parts
    ensures Concat(parts) != ""
  {
  }

  lemma RunContent(s: State, kind: Kind, index: nat, parts: seq<string>)
    requires Quiescent(s) && parts != [] && "" !in parts
    ensures Run(s, BlockEvents(Content(kind, index, parts))) == BlockEffect(s, Content(kind, index, parts))
  {
    hide Concat, PartDeltas;
    var start, deltas, stop := BlockStart(index, KindBlock(kind)), PartDeltas(kind, index, parts), BlockStop(index);
    ReassemblyLaws.EmptyConcat();
    ConcatNonEmpty(parts);
    Assoc([start], deltas, [stop]);
    RunCons(s, start, deltas + [stop]);
    var open := Handle(s, start);
    assert open == if kind == Text then s.(textIndex := index) else s.(thinkingIndex := index);
    RunAppend(open, deltas, [stop]);
    RunParts(open, kind, index, parts);
    assert [] + parts == parts;
    var full := Run(open, deltas);
    assert [stop] == [stop] + [];
    RunCons(full, stop, []);
  }

  predicate Sturdy(b: WireBlock) {
    b.Content? ==> b.parts != [] && "" !in b.parts
  }

  /** A complete block takes a quiet reassembler to a quiet one, with its own effect only. */
  lemma RunBlock(s: State, b: WireBlock)
    requires Quiescent(s) && Sturdy(b)
    ensures Run(s, BlockEvents(b)) == BlockEffect(s, b) && Quiescent(BlockEffect(s, b))
  {
    hide Run, BlockEvents, Concat;
    match b
    case Content(kind, index, parts) => RunContent(s, kind, index, parts);
    case Use(index, c) => RunUse(s, index, c);
    case Outcome(index, id, o) => RunOutcome(s, index, id, o);
  }

  function FoldBlocks(s: State, blocks: seq<WireBlock>): State
    decreases blocks
  {
    if blocks == [] then s else FoldBlocks(BlockEffect(s, blocks[0]), blocks[1..])
  }

  lemma {:induction false} RunAllBlocks(s: State, blocks: seq<WireBlock>)
    requires Quiescent(s) && forall k :: 0 <= k < |blocks| ==> Sturdy(blocks[k])
    ensures Run(s, AllEvents(blocks)) == FoldBlocks(s, blocks) && Quiescent(FoldBlocks(s, blocks))
    decreases blocks
  {
    hide Handle, BlockEvents, BlockEffect;
    if blocks != [] {
      RunBlock(s, blocks[0]);
      RunAppend(s, BlockEvents(blocks[0]), AllEvents(blocks[1..]));
      RunAllBlocks(BlockEffect(s, blocks[0]), blocks[1..]);
    }
  }

  lemma {:induction false} FoldAppend(s: State, a: seq<WireBlock>, b: seq<WireBlock>)
    ensures FoldBlocks(s, a + b) == FoldBlocks(FoldBlocks(s, a), b)
    decreases a
  {
    hide BlockEffect;
    if a == [] {
      assert a + b == b;
    } else {
      assert (a + b)[0] == a[0] && (a + b)[1..] == a[1..] + b;
      FoldAppend(BlockEffect(s, a[0]), a[1..], b);
    }
  }

  /** Each result, at its turn, has a finished call to answer. */
  predicate Answered(s: State, blocks: seq<WireBlock>)
    decreases blocks
  {
    blocks != [] ==>
      && (blocks[0].Outcome? ==> FirstMatch(s.result.tools, blocks[0].id).Some?)
      && Answered(BlockEffect(s, blocks[0]), blocks[1..])
  }

  lemma {:induction false} AnsweredAppend(s: State, a: seq<WireBlock>, b: seq<WireBlock>)
    ensures Answered(s, a + b) <==> Answered(s, a) && Answered(FoldBlocks(s, a), b)
    decreases a
  {
    hide BlockEffect;
    if a == [] {
      assert a + b == b;
    } else {
      assert (a + b)[0] == a[0] && (a + b)[1..] == a[1..] + b;
      AnsweredAppend(BlockEffect(s, a[0]), a[1..], b);
    }
  }

  lemma {:induction false} ContentAnswered(s: State, blocks: seq<WireBlock>)
    requires forall k :: 0 <= k < |blocks| ==> blocks[k].Content?
    ensures Answered(s, blocks)
    decreases blocks
  {
    hide BlockEffect;
    if blocks != [] {
      ContentAnswered(BlockEffect(s, blocks[0]), blocks[1..]);
    }
  }

  // ------------------------------------------------------ what a run should come to

  /** What a stretch of the conversation adds to a parsed turn. */
  datatype Yield = Yield(
    text: string, thinking: string, tools: seq<ToolCall>, executions: seq<Execution>, timeline: seq<Item>)

  const NOTHING := Yield("", "", [], [], [])

  function Plus(a: Yield, b: Yield): Yield {
    Yield(a.text + b.text, a.thinking + b.thinking, a.tools + b.tools,
          a.executions + b.executions, a.timeline + b.timeline)
  }

  /** All text, in order. */
  function AllText(chunks: seq<Chunk>): string {
    if chunks == [] then "" else chunks[0].text + AllText(chunks[1..])
  }

  /** The reasoning up to and including the first chunk with text. */
  function EarlyReasoning(chunks: seq<Chunk>): string {
    if chunks == [] then ""
    else if chunks[0].text != "" then chunks[0].reasoning
    else chunks[0].reasoning + EarlyReasoning(chunks[1..])
  }

  function AllReasoning(chunks: seq<Chunk>): string {
    if chunks == [] then "" else chunks[0].reasoning + AllReasoning(chunks[1..])
  }

  lemma {:induction false} NoReasoningIff(chunks: seq<Chunk>)
    ensures AllReasoning(chunks) == "" <==> forall k :: 0 <= k < |chunks| ==> chunks[k].reasoning == ""
  {
    if chunks != [] {
      NoReasoningIff(chunks[1..]);
      assert forall k :: 1 <= k < |chunks| ==> chunks[k] == chunks[1..][k - 1];
    }
  }

  /** No reasoning follows text. */
  predicate ReasoningFirst(chunks: seq<Chunk>) {
    forall j, k :: 0 <= j < k < |chunks| && chunks[j].text != "" ==> chunks[k].reasoning == ""
  }

  lemma {:induction false} RoundReasoningKeptIff(chunks: seq<Chunk>)
    ensures EarlyReasoning(chunks) <= AllReasoning(chunks)
    ensures EarlyReasoning(chunks) == AllReasoning(chunks) <==> ReasoningFirst(chunks)
  {
    if chunks != [] {
      var c, rest := chunks[0], chunks[1..];
      RoundReasoningKeptIff(rest);
      NoReasoningIff(rest);
      assert forall k :: 1 <= k < |chunks| ==> chunks[k] == rest[k - 1];
      assert forall k :: 0 <= k < |rest| ==> rest[k] == chunks[k + 1];
      assert EarlyReasoning(chunks) == c.reasoning + if c.text != "" then "" else EarlyReasoning(rest);
      assert |AllReasoning(chunks)| == |c.reasoning| + |AllReasoning(rest)|;
    }
  }

  function ContentYield(chunks: seq<Chunk>): Yield {
    var thinking, text := EarlyReasoning(chunks), AllText(chunks);
    Yield(text, thinking, [], [],
          (if thinking != "" then [ThinkingItem(thinking)] else [])
          + if text != "" then [TextItem(text)] else [])
  }

  function ExecutionOf(c: Call, o: Adapter.ToolOutput): Execution {
    Execution(c.name, CallOf(c).params, o.content, c.id)
  }

  function StepYield(calls: seq<Call>, step: ToolStep): Yield
    requires step.i < |calls|
  {
    var c := calls[step.i];
    match step
    case Start(_) => NOTHING.(tools := [CallOf(c)])
    case Return(_, o) => NOTHING.(executions := [ExecutionOf(c, o)], timeline := [ToolItem(ExecutionOf(c, o))])
  }

  /** Tools in the order they start, executions in the order they return. */
  function StepsYield(calls: seq<Call>, steps: seq<ToolStep>): Yield
    requires forall k :: 0 <= k < |steps| ==> steps[k].i < |calls|
  {
    if steps == [] then NOTHING else Plus(StepYield(calls, steps[0]), StepsYield(calls, steps[1..]))
  }

  function TurnYield(turn: Turn): Yield
    requires StepsInRange(turn)
  {
    Plus(ContentYield(turn.chunks), StepsYield(turn.calls, turn.steps))
  }

  function RunYield(turns: seq<Turn>): Yield
    requires InRange(turns)
  {
    if turns == [] then NOTHING else Plus(TurnYield(turns[0]), RunYield(turns[1..]))
  }

  function NamesOf(tools: seq<ToolCall>): seq<string> {
    if tools == [] then [] else [tools[0].name] + NamesOf(tools[1..])
  }

  lemma {:induction false} NamesOfAppend(a: seq<ToolCall>, b: seq<ToolCall>)
    ensures NamesOf(a + b) == NamesOf(a) + NamesOf(b)
  {
    if a == [] {
      assert a + b == b;
    } else {
      NamesOfAppend(a[1..], b);
      assert (a + b)[1..] == a[1..] + b;
      Assoc([a[0].name], NamesOf(a[1..]), NamesOf(b));
    }
  }

  /** `t` is `s` with `y` added. */
  predicate Adds(s: State, t: State, y: Yield) {
    && Concat(t.allText) == Concat(s.allText) + y.text
    && Concat(t.allThinking) == Concat(s.allThinking) + y.thinking
    && t.result.streamID == s.result.streamID && t.result.error == s.result.error
    && t.result.tools == s.result.tools + y.tools
    && t.result.toolNames == s.result.toolNames + NamesOf(y.tools)
    && t.result.executions == s.result.executions + y.executions
    && t.result.timeline == s.result.timeline + y.timeline
  }

  lemma AddsNothing(s: State)
    ensures Adds(s, s, NOTHING)
  {
  }

  lemma AddsThen(s: State, t: State, u: State, y: Yield, z: Yield)
    requires Adds(s, t, y) && Adds(t, u, z)
    ensures Adds(s, u, Plus(y, z))
  {
    hide Concat;
    NamesOfAppend(y.tools, z.tools);
    Assoc(Concat(s.allText), y.text, z.text);
    Assoc(Concat(s.allThinking), y.thinking, z.thinking);
    Assoc(s.result.tools, y.tools, z.tools);
    Assoc(s.result.toolNames, NamesOf(y.tools), NamesOf(z.tools));
    Assoc(s.result.executions, y.executions, z.executions);
    Assoc(s.result.timeline, y.timeline, z.timeline);
  }

  // ---------------------------------------------------------------------- content

  lemma {:induction false} PartsAddUp(chunks: seq<Chunk>)
    ensures Concat(TextParts(chunks)) == AllText(chunks)
    ensures Concat(ThinkingParts(chunks)) == EarlyReasoning(chunks)
    ensures "" !in TextParts(chunks) && "" !in ThinkingParts(chunks)
  {
    ReassemblyLaws.EmptyConcat();
    if chunks != [] {
      PartsAddUp(chunks[1..]);
      var c := chunks[0];
      var textRest := TextParts(chunks[1..]);
      var thinkingRest := if c.text != "" then [] else ThinkingParts(chunks[1..]);
      assert [] + textRest == textRest && [] + thinkingRest == thinkingRest;
      assert ([c.text] + textRest)[1..] == textRest;
      assert ([c.reasoning] + thinkingRest)[1..] == thinkingRest;
      assert c.text == "" ==> c.text + AllText(chunks[1..]) == AllText(chunks[1..]);
      assert c.reasoning == "" ==> c.reasoning + EarlyReasoning(chunks[1..]) == EarlyReasoning(chunks[1..]);
      assert c.reasoning + "" == c.reasoning;
    }
  }

  function ThinkingYield(text: string): Yield {
    Yield("", text, [], [], if text != "" then [ThinkingItem(text)] else [])
  }

  function TextYield(text: string): Yield {
    Yield(text, "", [], [], if text != "" then [TextItem(text)] else [])
  }

  lemma ContentBlockAdds(s: State, kind: Kind, index: nat, parts: seq<string>)
    requires "" !in parts
    ensures
      var y := if kind == Text then TextYield(Concat(parts)) else ThinkingYield(Concat(parts));
      Adds(s, FoldBlocks(s, ContentBlock(kind, index, parts)), y)
  {
    hide Concat;
    ReassemblyLaws.EmptyConcat();
    AddsNothing(s);
    if parts != [] {
      ConcatNonEmpty(parts);
      var b := Content(kind, index, parts);
      assert [b][1..] == [];
      ConcatSnoc(s.allText, Concat(parts));
      ConcatSnoc(s.allThinking, Concat(parts));
      var t := BlockEffect(s, b);
      assert FoldBlocks(s, [b]) == t;
    }
  }

  lemma ContentAdds(s: State, base: nat, chunks: seq<Chunk>)
    ensures Adds(s, FoldBlocks(s, ContentBlocks(base, chunks)), ContentYield(chunks))
    ensures Answered(s, ContentBlocks(base, chunks))
    ensures forall k :: 0 <= k < |ContentBlocks(base, chunks)| ==> Sturdy(ContentBlocks(base, chunks)[k])
  {
    hide Concat, FoldBlocks, NamesOf, TextParts, ThinkingParts;
    PartsAddUp(chunks);
    ContentAnswered(s, ContentBlocks(base, chunks));
    var thinking := ContentBlock(Thinking, base, ThinkingParts(chunks));
    var text := ContentBlock(Text, base + |thinking|, TextParts(chunks));
    var t := FoldBlocks(s, thinking);
    ContentBlockAdds(s, Thinking, base, ThinkingParts(chunks));
    ContentBlockAdds(t, Text, base + |thinking|, TextParts(chunks));
    FoldAppend(s, thinking, text);
    var y, z := ThinkingYield(EarlyReasoning(chunks)), TextYield(AllText(chunks));
    AddsThen(s, t, FoldBlocks(t, text), y, z);
    assert "" + AllText(chunks) == AllText(chunks) && EarlyReasoning(chunks) + "" == EarlyReasoning(chunks);
    assert Plus(y, z) == ContentYield(chunks);
  }

  // ------------------------------------------------------------------------ tools

  predicate DistinctCalls(calls: seq<Call>) {
    forall j, k :: 0 <= j < k < |calls| ==> calls[j].id != calls[k].id
  }

  /** Every finished tool is one of the calls. */
  ghost predicate KnownTools(tools: seq<ToolCall>, all: seq<Call>) {
    forall k :: 0 <= k < |tools| ==> exists c :: c in all && tools[k] == CallOf(c)
  }

  predicate StartedBefore(steps: seq<ToolStep>, k: nat, i: nat)
    requires k <= |steps|
  {
    exists j :: 0 <= j < k && steps[j] == Start(i)
  }

  /** No call returns before it has started. */
  predicate ReturnsFollowStarts(steps: seq<ToolStep>) {
    forall k :: 0 <= k < |steps| && steps[k].Return? ==> StartedBefore(steps, k, steps[k].i)
  }

  lemma MatchIsOwnCall(tools: seq<ToolCall>, all: seq<Call>, c: Call)
    requires DistinctCalls(all) && KnownTools(tools, all) && c in all && CallOf(c) in tools
    ensures FirstMatch(tools, c.id).Some? && tools[FirstMatch(tools, c.id).value] == CallOf(c)
  {
  }

  lemma StepAdds(s: State, all: seq<Call>, calls: seq<Call>, toolBase: nat, step: ToolStep)
    requires DistinctCalls(all) && KnownTools(s.result.tools, all)
    requires step.i < |calls| && calls[step.i] in all
    requires step.Return? ==> CallOf(calls[step.i]) in s.result.tools
    ensures
      var b := StepBlock(toolBase, |calls|, calls[step.i], step);
      var t := BlockEffect(s, b);
      && Sturdy(b) && Adds(s, t, StepYield(calls, step)) && KnownTools(t.result.tools, all)
      && (b.Outcome? ==> FirstMatch(s.result.tools, b.id).Some?)
  {
    AddsNothing(s);
    ReassemblyLaws.EmptyConcat();
    var c := calls[step.i];
    match step
    case Start(_) =>
      assert [CallOf(c)][1..] == [] && NamesOf([CallOf(c)]) == [c.name];
    case Return(_, o) =>
      MatchIsOwnCall(s.result.tools, all, c);
      assert Concat([o.content]) == o.content;
  }

  lemma {:induction false} StepsAdd(
      s: State, all: seq<Call>, calls: seq<Call>, toolBase: nat, done: seq<ToolStep>, steps: seq<ToolStep>)
    requires DistinctCalls(all) && KnownTools(s.result.tools, all)
    requires forall c :: c in calls ==> c in all
    requires forall k :: 0 <= k < |steps| ==> steps[k].i < |calls|
    requires forall k :: 0 <= k < |done| ==> done[k].i < |calls|
    requires forall k :: 0 <= k < |done| && done[k].Start? ==> CallOf(calls[done[k].i]) in s.result.tools
    requires ReturnsFollowStarts(done + steps)
    ensures
      var t := FoldBlocks(s, StepBlocks(toolBase, calls, steps));
      && Adds(s, t, StepsYield(calls, steps)) && KnownTools(t.result.tools, all)
    ensures
      var blocks := StepBlocks(toolBase, calls, steps);
      Answered(s, blocks) && forall k :: 0 <= k < |blocks| ==> Sturdy(blocks[k])
    decreases steps
  {
    hide Adds, BlockEffect, KnownTools, StepBlock, StepYield, ReturnsFollowStarts, DistinctCalls;
    if steps == [] {
      AddsNothing(s);
    } else {
      var step, b := steps[0], StepBlock(toolBase, |calls|, calls[steps[0].i], steps[0]);
      StepIsReady(s, calls, done, steps);
      StepAdds(s, all, calls, toolBase, step);
      var t := BlockEffect(s, b);
      assert done + [step] + steps[1..] == done + steps;
      ToolsAfterStep(s, t, calls, done, step);
      StepsAdd(t, all, calls, toolBase, done + [step], steps[1..]);
      AddsThen(s, t, FoldBlocks(t, StepBlocks(toolBase, calls, steps[1..])),
               StepYield(calls, step), StepsYield(calls, steps[1..]));
    }
  }

  lemma StepIsReady(s: State, calls: seq<Call>, done: seq<ToolStep>, steps: seq<ToolStep>)
    requires steps != [] && ReturnsFollowStarts(done + steps)
    requires steps[0].i < |calls|
    requires forall k :: 0 <= k < |done| ==> done[k].i < |calls|
    requires forall k :: 0 <= k < |done| && done[k].Start? ==> CallOf(calls[done[k].i]) in s.result.tools
    ensures steps[0].Return? ==> CallOf(calls[steps[0].i]) in s.result.tools
  {
    var all := done + steps;
    assert all[|done|] == steps[0];
    if steps[0].Return? {
      assert StartedBefore(all, |done|, steps[0].i);
      var j :| 0 <= j < |done| && all[j] == Start(steps[0].i);
      assert done[j] == all[j];
    }
  }

  lemma ToolsAfterStep(s: State, t: State, calls: seq<Call>, done: seq<ToolStep>, step: ToolStep)
    requires step.i < |calls| && Adds(s, t, StepYield(calls, step))
    requires forall k :: 0 <= k < |done| ==> done[k].i < |calls|
    requires forall k :: 0 <= k < |done| && done[k].Start? ==> CallOf(calls[done[k].i]) in s.result.tools
    ensures
      var d := done + [step];
      forall k :: 0 <= k < |d| ==> d[k].i < |calls| && (d[k].Start? ==> CallOf(calls[d[k].i]) in t.result.tools)
  {
  }

  // -------------------------------------------------------------------- whole runs

  function AllCalls(turns: seq<Turn>): seq<Call> {
    if turns == [] then [] else turns[0].calls + AllCalls(turns[1..])
  }

  /** Runs the engine can make: steps name their round's calls, and results follow starts. */
  predicate Orderly(turns: seq<Turn>) {
    InRange(turns) && forall k :: 0 <= k < |turns| ==> ReturnsFollowStarts(turns[k].steps)
  }

  lemma {:induction false} RunAdds(s: State, all: seq<Call>, base: nat, turns: seq<Turn>)
    requires Orderly(turns) && DistinctCalls(all) && KnownTools(s.result.tools, all)
    requires forall c :: c in AllCalls(turns) ==> c in all
    ensures Adds(s, FoldBlocks(s, RunBlocks(base, turns)), RunYield(turns))
    ensures Answered(s, RunBlocks(base, turns))
    ensures forall k :: 0 <= k < |RunBlocks(base, turns)| ==> Sturdy(RunBlocks(base, turns)[k])
    decreases turns
  {
    hide Answered, Adds, FoldBlocks, KnownTools, DistinctCalls, ContentBlocks, StepBlocks, NextBase, ReturnsFollowStarts;
    if turns == [] {
      AddsNothing(s);
      assert FoldBlocks(s, []) == s && Answered(s, []) by { FoldNothing(s); }
    } else {
      var turn, rest := turns[0], turns[1..];
      var content, tools := ContentBlocks(base, turn.chunks), StepBlocks(ToolBase(base, turn), turn.calls, turn.steps);
      var t := FoldBlocks(s, content);
      ContentAdds(s, base, turn.chunks);
      SameTools(s, t, ContentYield(turn.chunks), all);
      var none: seq<ToolStep> := [];
      assert none + turn.steps == turn.steps;
      StepsAdd(t, all, turn.calls, ToolBase(base, turn), none, turn.steps);
      var u := FoldBlocks(t, tools);
      AddsThen(s, t, u, ContentYield(turn.chunks), StepsYield(turn.calls, turn.steps));
      FoldAppend(s, content, tools);
      AnsweredAppend(s, content, tools);
      RunAdds(u, all, NextBase(base, turn), rest);
      var later := RunBlocks(NextBase(base, turn), rest);
      AddsThen(s, u, FoldBlocks(u, later), TurnYield(turn), RunYield(rest));
      FoldAppend(s, content + tools, later);
      AnsweredAppend(s, content + tools, later);
    }
  }

  lemma FoldNothing(s: State)
    ensures FoldBlocks(s, []) == s && Answered(s, [])
  {
  }

  lemma SameTools(s: State, t: State, y: Yield, all: seq<Call>)
    requires Adds(s, t, y) && y.tools == [] && KnownTools(s.result.tools, all)
    ensures KnownTools(t.result.tools, all)
  {
    assert s.result.tools + [] == s.result.tools;
  }

  /** The events of a request: preamble, the adapter's run, epilogue. */
  function Emitted(streamID: string, turns: seq<Turn>, stopReason: string, outputTokens: int): Trace
    requires InRange(turns)
  {
    PreambleEvents(streamID)
    + Adapter.RespondAll(Adapter.INITIAL, RunCallbacks(turns, 0)).events
    + EpilogueEvents(stopReason, outputTokens)
  }

  /** What a client should make of a request. */
  function Intended(streamID: string, turns: seq<Turn>): Parsed
    requires InRange(turns)
  {
    var y := RunYield(turns);
    Parsed(streamID, y.thinking, y.text, NamesOf(y.tools), y.tools, y.executions, y.timeline, "")
  }

  /** All reasoning of all rounds, in order. */
  function ReasoningOf(turns: seq<Turn>): string {
    if turns == [] then "" else AllReasoning(turns[0].chunks) + ReasoningOf(turns[1..])
  }

  lemma {:induction false} StepsSayNothing(calls: seq<Call>, steps: seq<ToolStep>)
    requires forall k :: 0 <= k < |steps| ==> steps[k].i < |calls|
    ensures StepsYield(calls, steps).thinking == "" && StepsYield(calls, steps).text == ""
  {
    if steps != [] {
      StepsSayNothing(calls, steps[1..]);
    }
  }

  predicate AllReasoningFirst(turns: seq<Turn>) {
    forall t :: 0 <= t < |turns| ==> ReasoningFirst(turns[t].chunks)
  }

  lemma AllReasoningFirstCons(turns: seq<Turn>)
    requires turns != []
    ensures AllReasoningFirst(turns) <==> ReasoningFirst(turns[0].chunks) && AllReasoningFirst(turns[1..])
  {
    hide ReasoningFirst;
    var rest := turns[1..];
    assert forall t :: 0 <= t < |rest| ==> rest[t] == turns[t + 1];
    assert forall t :: 1 <= t < |turns| ==> turns[t] == rest[t - 1];
  }

  lemma RunReasoningCons(turns: seq<Turn>)
    requires turns != [] && InRange(turns)
    ensures RunYield(turns).thinking == EarlyReasoning(turns[0].chunks) + RunYield(turns[1..]).thinking
  {
    hide EarlyReasoning, AllText, StepsYield;
    var turn := turns[0];
    StepsSayNothing(turn.calls, turn.steps);
    assert EarlyReasoning(turn.chunks) + "" == EarlyReasoning(turn.chunks);
    assert TurnYield(turn).thinking == EarlyReasoning(turn.chunks);
  }

  lemma {:induction false} RunReasoning(turns: seq<Turn>)
    requires InRange(turns)
    ensures |RunYield(turns).thinking| <= |ReasoningOf(turns)|
    ensures RunYield(turns).thinking == ReasoningOf(turns) <==> AllReasoningFirst(turns)
    decreases turns
  {
    if turns != [] {
      hide EarlyReasoning, AllReasoning, AllReasoningFirst, ReasoningFirst, RunYield;
      var turn, rest := turns[0], turns[1..];
      RunReasoning(rest);
      RoundReasoningKeptIff(turn.chunks);
      RunReasoningCons(turns);
      AllReasoningFirstCons(turns);
      SumsAgreeIff(EarlyReasoning(turn.chunks), RunYield(rest).thinking, AllReasoning(turn.chunks), ReasoningOf(rest));
    }
  }

  lemma SumsAgreeIff(a: string, b: string, c: string, d: string)
    requires a <= c && |b| <= |d|
    ensures a + b == c + d <==> a == c && b == d
  {
    if a + b == c + d {
      assert |a| + |b| == |c| + |d|;
      assert b == (a + b)[|a|..] && d == (c + d)[|c|..];
    }
  }

  /** The rebuilt thinking is all reasoning exactly when none follows text in its round. */
  lemma {:induction false} ReasoningKeptIff(
      streamID: string, turns: seq<Turn>, stopReason: string, outputTokens: int, failure: string, r: Parsed)
    requires Orderly(turns) && DistinctCalls(AllCalls(turns))
    requires Reassembles(Emitted(streamID, turns, stopReason, outputTokens), failure, r)
    ensures r.thinking == Intended(streamID, turns).thinking
    ensures r.thinking == ReasoningOf(turns) <==> AllReasoningFirst(turns)
  {
    hide Emitted, Reassembles, DistinctCalls, RunYield, AllReasoningFirst, ReasoningOf;
    EmitReassembleRoundTrip(streamID, turns, stopReason, outputTokens, failure, r);
    RunReasoning(turns);
  }

  lemma {:induction false} OnlyPartDeltas(kind: Kind, index: nat, parts: seq<string>)
    ensures forall e :: e in PartDeltas(kind, index, parts) ==> e.BlockDelta?
  {
    if parts != [] {
      OnlyPartDeltas(kind, index, parts[1..]);
    }
  }

  /** Blocks start, add to and stop blocks, nothing else. */
  lemma {:induction false} OnlyBlockEvents(blocks: seq<WireBlock>)
    ensures forall e :: e in AllEvents(blocks) ==> e.BlockStart? || e.BlockDelta? || e.BlockStop?
  {
    if blocks != [] {
      OnlyBlockEvents(blocks[1..]);
      if blocks[0].Content? {
        OnlyPartDeltas(blocks[0].kind, blocks[0].index, blocks[0].parts);
      }
    }
  }

  /** The state a reassembler reaches just before a request's `message_stop`. */
  lemma EndOfRun(streamID: string, turns: seq<Turn>, stopReason: string, outputTokens: int, failure: string)
    requires Orderly(turns) && DistinctCalls(AllCalls(turns))
    ensures
      var s := EndState(Emitted(streamID, turns, stopReason, outputTokens), failure);
      && Quiescent(s)
      && Adds(INITIAL.(result := INITIAL.result.(streamID := streamID)), s, RunYield(turns))
  {
    hide Adds, Adapter.RespondAll, FoldBlocks, AllEvents, DistinctCalls, Handled, Run, RunBlocks, RunYield,
         AllCalls, ReturnsFollowStarts;
    var blocks := RunBlocks(0, turns);
    var body := AllEvents(blocks);
    var delta := MessageDelta(stopReason, outputTokens);
    var all := Emitted(streamID, turns, stopReason, outputTokens);
    var h := PreambleEvents(streamID) + body + [delta];
    RunEmission(Adapter.INITIAL, turns, 0);
    OnlyBlockEvents(blocks);
    assert all == h + [MessageStop];
    HandledIs(all, h);
    var start := INITIAL.(result := INITIAL.result.(streamID := streamID));
    assert Run(INITIAL, PreambleEvents(streamID)) == start by { RunPreamble(streamID); }
    RunAdds(start, AllCalls(turns), 0, turns);
    RunAllBlocks(start, blocks);
    RunAppend(INITIAL, PreambleEvents(streamID), body);
    RunSnoc(INITIAL, PreambleEvents(streamID) + body, delta);
  }

  lemma RunPreamble(streamID: string)
    ensures Run(INITIAL, PreambleEvents(streamID)) == INITIAL.(result := INITIAL.result.(streamID := streamID))
  {
    var e := MessageStart(streamID);
    assert PreambleEvents(streamID) == [e] + [Ping] && [Ping] == [Ping] + [];
    RunCons(INITIAL, e, [Ping]);
    RunCons(Handle(INITIAL, e), Ping, []);
  }

  /** With nothing in flight there is one result, whatever the flush order. */
  lemma QuiescentResult(s: State, r: Parsed, to: seq<int>, ro: seq<int>)
    requires Quiescent(s) && IsFlush(s, to, ro) && r == Finalized(s, to, ro)
    ensures r == s.result.(thinking := Concat(s.allThinking), text := Concat(s.allText))
  {
  }

  /**
   * Emit and rebuild. For every request whose calls have distinct ids and whose results
   * follow their starts, rebuilding the emitted events gives exactly the conversation:
   * all text, the reasoning that came before text in each round, one tool per started
   * call, one execution per result attached to its own call, and the timeline in order.
   */
  lemma EmitReassembleRoundTrip(
      streamID: string, turns: seq<Turn>, stopReason: string, outputTokens: int, failure: string, r: Parsed)
    requires Orderly(turns) && DistinctCalls(AllCalls(turns))
    requires Reassembles(Emitted(streamID, turns, stopReason, outputTokens), failure, r)
    ensures r == Intended(streamID, turns)
  {
    hide Emitted, EndState, Finalized, Quiescent, IsFlush, ReturnsFollowStarts, DistinctCalls, RunYield, Concat,
         NamesOf;
    var events := Emitted(streamID, turns, stopReason, outputTokens);
    EndOfRun(streamID, turns, stopReason, outputTokens, failure);
    var s := EndState(events, failure);
    var to, ro :| IsFlush(s, to, ro) && r == Finalized(s, to, ro);
    QuiescentResult(s, r, to, ro);
    NothingYet();
    var y := RunYield(turns);
    assert "" + y.text == y.text && "" + y.thinking == y.thinking;
    assert [] + y.tools == y.tools && [] + NamesOf(y.tools) == NamesOf(y.tools);
    assert [] + y.executions == y.executions && [] + y.timeline == y.timeline;
  }

  lemma NothingYet()
    ensures Concat<char>([]) == ""
  {
  }
}
