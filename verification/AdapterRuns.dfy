/**
 * Whole adapter runs: what the callbacks of a request emit, as a list of complete
 * content blocks, and what follows for indices and for the trace.
 */
module AdapterRuns {
  import opened Octets
  import opened Protocol
  import opened Streamers
  import opened Adapter

  datatype Chunk = Chunk(reasoning: string, text: string)

  datatype Call = Call(id: string, name: string, arguments: string)

  /** What the tool loop reports: call `i` starts, or returns. */
  datatype ToolStep = Start(i: nat) | Return(i: nat, output: ToolOutput)

  datatype Turn = Turn(chunks: seq<Chunk>, calls: seq<Call>, steps: seq<ToolStep>)

  predicate StepsInRange(turn: Turn) {
    forall k :: 0 <= k < |turn.steps| ==> turn.steps[k].i < |turn.calls|
  }

  /** The callbacks of one round, in the order the engine makes them. */
  function TurnCallbacks(turn: Turn, number: nat): seq<Callback>
    requires StepsInRange(turn)
  {
    [RoundStart] + Deltas(turn.chunks) + [AssistantMessage(|turn.calls|)]
    + ToolCallbacks(turn.calls, turn.steps) + [RoundEnd(number)]
  }

  function Deltas(chunks: seq<Chunk>): seq<Callback> {
    if chunks == [] then [] else [Delta(chunks[0].reasoning, chunks[0].text)] + Deltas(chunks[1..])
  }

  function StepCallback(c: Call, step: ToolStep): Callback {
    match step
    case Start(i) => ToolCallStart(i, c.id, c.name, c.arguments)
    case Return(i, output) => ToolResult(i, c.id, Some(output))
  }

  function ToolCallbacks(calls: seq<Call>, steps: seq<ToolStep>): seq<Callback>
    requires forall k :: 0 <= k < |steps| ==> steps[k].i < |calls|
  {
    if steps == [] then []
    else [StepCallback(calls[steps[0].i], steps[0])] + ToolCallbacks(calls, steps[1..])
  }

  // -------------------------------------------------------------- complete blocks

  datatype WireBlock =
    | Content(kind: Kind, index: nat, parts: seq<string>)
    | Use(index: nat, call: Call)
    | Outcome(index: nat, id: string, output: ToolOutput)

  function PartDeltas(kind: Kind, index: nat, parts: seq<string>): Trace {
    if parts == [] then []
    else [BlockDelta(index, KindDelta(kind, parts[0]))] + PartDeltas(kind, index, parts[1..])
  }

  function BlockEvents(b: WireBlock): Trace {
    match b
    case Content(kind, index, parts) =>
      [BlockStart(index, KindBlock(kind))] + PartDeltas(kind, index, parts) + [BlockStop(index)]
    case Use(index, c) => ToolUseEvents(index, c.id, c.name, c.arguments)
    case Outcome(index, id, o) => ToolResultEvents(index, id, o.content, o.isError)
  }

  function AllEvents(blocks: seq<WireBlock>): Trace {
    if blocks == [] then [] else BlockEvents(blocks[0]) + AllEvents(blocks[1..])
  }

  lemma {:induction false} AllEventsAppend(a: seq<WireBlock>, b: seq<WireBlock>)
    ensures AllEvents(a + b) == AllEvents(a) + AllEvents(b)
  {
    hide BlockEvents;
    if a == [] {
      assert a + b == b;
    } else {
      AllEventsAppend(a[1..], b);
      assert (a + b)[1..] == a[1..] + b;
      Assoc(BlockEvents(a[0]), AllEvents(a[1..]), AllEvents(b));
    }
  }

  // ------------------------------------------------------------ one round's blocks

  /** Reasoning counts until the first chunk that carries text, that chunk included. */
  function ThinkingParts(chunks: seq<Chunk>): seq<string> {
    if chunks == [] then [] else
      (if chunks[0].reasoning != "" then [chunks[0].reasoning] else [])
      + if chunks[0].text != "" then [] else ThinkingParts(chunks[1..])
  }

  function TextParts(chunks: seq<Chunk>): seq<string> {
    if chunks == [] then [] else
      (if chunks[0].text != "" then [chunks[0].text] else []) + TextParts(chunks[1..])
  }

  function ContentBlock(kind: Kind, index: nat, parts: seq<string>): seq<WireBlock> {
    if parts == [] then [] else [Content(kind, index, parts)]
  }

  function ContentBlocks(base: nat, chunks: seq<Chunk>): seq<WireBlock> {
    var thinking := ContentBlock(Thinking, base, ThinkingParts(chunks));
    thinking + ContentBlock(Text, base + |thinking|, TextParts(chunks))
  }

  function StepBlock(toolBase: nat, n: nat, c: Call, step: ToolStep): WireBlock {
    match step
    case Start(i) => Use(toolBase + i, c)
    case Return(i, output) => Outcome(toolBase + n + i, c.id, output)
  }

  function StepBlocks(toolBase: nat, calls: seq<Call>, steps: seq<ToolStep>): seq<WireBlock>
    requires forall k :: 0 <= k < |steps| ==> steps[k].i < |calls|
  {
    if steps == [] then []
    else [StepBlock(toolBase, |calls|, calls[steps[0].i], steps[0])] + StepBlocks(toolBase, calls, steps[1..])
  }

  function ToolBase(base: nat, turn: Turn): nat {
    base + |ContentBlocks(base, turn.chunks)|
  }

  function TurnBlocks(base: nat, turn: Turn): seq<WireBlock>
    requires StepsInRange(turn)
  {
    ContentBlocks(base, turn.chunks) + StepBlocks(ToolBase(base, turn), turn.calls, turn.steps)
  }

  /** Did the result of the last call, by index, come in? */
  predicate LastReturned(calls: seq<Call>, steps: seq<ToolStep>) {
    exists k :: 0 <= k < |steps| && steps[k].Return? && steps[k].i == |calls| - 1
  }

  function NextBase(base: nat, turn: Turn): nat {
    ToolBase(base, turn) + if LastReturned(turn.calls, turn.steps) then 2 * |turn.calls| else 0
  }

  // ------------------------------------------------------ the round emits its blocks

  /** What is still to come on a stream that may already be open. */
  function Rest(s: Stream, parts: seq<string>): Trace {
    (if !s.started && parts != [] then [BlockStart(s.index, KindBlock(s.kind))] else [])
    + PartDeltas(s.kind, s.index, parts)
    + (if s.started || parts != [] then [BlockStop(s.index)] else [])
  }

  function AfterClose(s: Stream, parts: seq<string>): nat {
    if s.started || parts != [] then s.index + 1 else s.index
  }

  function FoldDeltas(r: Round, chunks: seq<Chunk>): Step<Round>
    decreases chunks
  {
    if chunks == [] then Step(r, []) else
      var a := HandleDelta(r, chunks[0].reasoning, chunks[0].text);
      var b := FoldDeltas(a.state, chunks[1..]);
      Step(b.state, a.events + b.events)
  }

  function DeltasThenFinish(r: Round, chunks: seq<Chunk>): Step<Round> {
    var a := FoldDeltas(r, chunks);
    var b := Finish(a.state);
    Step(b.state, a.events + b.events)
  }

  lemma DeltasThenFinishCons(r: Round, chunks: seq<Chunk>)
    requires chunks != []
    ensures
      var a := HandleDelta(r, chunks[0].reasoning, chunks[0].text);
      var b := DeltasThenFinish(a.state, chunks[1..]);
      DeltasThenFinish(r, chunks) == Step(b.state, a.events + b.events)
  {
  }

  /** Writing one more part first is writing it and then the rest. */
  lemma RestCons(s: Stream, part: string, parts: seq<string>)
    requires part != ""
    ensures
      var w := WriteChunk(s, part);
      && w.state.kind == s.kind
      && Rest(s, [part] + parts) == w.events + Rest(w.state, parts)
      && AfterClose(s, [part] + parts) == AfterClose(w.state, parts)
  {
  }

  lemma RestNothing(s: Stream)
    ensures Rest(s, []) == CloseStream(s).events && AfterClose(s, []) == CloseStream(s).state.index
  {
  }

  lemma {:induction false} TextEmission(r: Round, chunks: seq<Chunk>)
    requires r.text.Some? && r.text.value.kind == Text
    ensures
      var s, d := r.text.value, DeltasThenFinish(r, chunks);
      && d.events == Rest(s, TextParts(chunks))
      && NextBlockIndex(d.state) == AfterClose(s, TextParts(chunks))
    decreases chunks
  {
    hide Rest, AfterClose, WriteEvents;
    var s := r.text.value;
    if chunks == [] {
      RestNothing(s);
      assert DeltasThenFinish(r, chunks).events == CloseStream(s).events;
    } else {
      var text := chunks[0].text;
      var a := HandleDelta(r, chunks[0].reasoning, text);
      DeltasThenFinishCons(r, chunks);
      TextEmission(a.state, chunks[1..]);
      if text != "" {
        RestCons(s, text, TextParts(chunks[1..]));
        assert a.events == WriteChunk(s, text).events;
      } else {
        assert a.events == [] && [] + TextParts(chunks[1..]) == TextParts(chunks[1..]);
      }
    }
  }

  lemma Assoc4<T>(a: seq<T>, b: seq<T>, c: seq<T>, d: seq<T>)
    ensures (a + (b + c)) + d == (a + b) + (c + d)
  {
  }

  /** Thinking closes before text opens, each as one block, neither without content. */
  lemma {:induction false} ContentEmission(r: Round, chunks: seq<Chunk>)
    requires r.text.None? && r.thinking.kind == Thinking
    ensures
      var s, d := r.thinking, DeltasThenFinish(r, chunks);
      var next := AfterClose(s, ThinkingParts(chunks));
      && d.events == Rest(s, ThinkingParts(chunks)) + Rest(Stream(Text, next, false), TextParts(chunks))
      && NextBlockIndex(d.state) == AfterClose(Stream(Text, next, false), TextParts(chunks))
    decreases chunks
  {
    hide Rest, AfterClose, WriteEvents, WriteChunk;
    var s := r.thinking;
    if chunks == [] {
      RestNothing(s);
      var t := Stream(Text, CloseStream(s).state.index, false);
      RestNothing(t);
      assert DeltasThenFinish(r, chunks).events == CloseStream(s).events + CloseStream(t).events;
    } else {
      var reasoning, text := chunks[0].reasoning, chunks[0].text;
      var reasoned := Reason(r, reasoning);
      var s' := reasoned.state.thinking;
      var a := HandleDelta(r, reasoning, text);
      var later := if text != "" then [] else ThinkingParts(chunks[1..]);
      DeltasThenFinishCons(r, chunks);
      ThinkingStep(r, reasoning, later);
      if text == "" {
        assert a.events == reasoned.events && [] + TextParts(chunks[1..]) == TextParts(chunks[1..]);
        ContentEmission(a.state, chunks[1..]);
        Assoc(reasoned.events, Rest(s', later),
              Rest(Stream(Text, AfterClose(s', later), false), TextParts(chunks[1..])));
      } else {
        RestNothing(s');
        var t := Stream(Text, CloseStream(s').state.index, false);
        var w := WriteChunk(t, text);
        var closing, rest := CloseStream(s').events, Rest(w.state, TextParts(chunks[1..]));
        RestCons(t, text, TextParts(chunks[1..]));
        TextEmission(a.state, chunks[1..]);
        assert a.events == reasoned.events + (closing + w.events);
        Assoc4(reasoned.events, closing, w.events, rest);
      }
    }
  }

  lemma ThinkingStep(r: Round, reasoning: string, later: seq<string>)
    requires r.text.None?
    ensures
      var w := Reason(r, reasoning);
      var parts := (if reasoning != "" then [reasoning] else []) + later;
      && Rest(r.thinking, parts) == w.events + Rest(w.state.thinking, later)
      && AfterClose(r.thinking, parts) == AfterClose(w.state.thinking, later)
      && w.state.thinking.kind == r.thinking.kind && w.state.text.None?
  {
    hide Rest, AfterClose;
    if reasoning != "" {
      RestCons(r.thinking, reasoning, later);
    } else {
      assert [] + later == later && [] + Rest(r.thinking, later) == Rest(r.thinking, later);
    }
  }

  lemma FreshRest(kind: Kind, index: nat, parts: seq<string>)
    ensures Rest(Stream(kind, index, false), parts) == AllEvents(ContentBlock(kind, index, parts))
    ensures AfterClose(Stream(kind, index, false), parts) == index + |ContentBlock(kind, index, parts)|
  {
  }

  lemma NewRoundEmission(base: nat, chunks: seq<Chunk>)
    ensures
      var d := DeltasThenFinish(NewRound(base), chunks);
      && d.events == AllEvents(ContentBlocks(base, chunks))
      && NextBlockIndex(d.state) == base + |ContentBlocks(base, chunks)|
  {
    var thinking := ContentBlock(Thinking, base, ThinkingParts(chunks));
    var text := ContentBlock(Text, base + |thinking|, TextParts(chunks));
    ContentEmission(NewRound(base), chunks);
    FreshRest(Thinking, base, ThinkingParts(chunks));
    FreshRest(Text, base + |thinking|, TextParts(chunks));
    AllEventsAppend(thinking, text);
  }

  // ------------------------------------------------------------ callbacks to blocks

  lemma {:induction false} RespondAllAppend(st: State, a: seq<Callback>, b: seq<Callback>)
    requires !RespondAll(st, a).failed
    ensures
      var r := RespondAll(st, a);
      var s := RespondAll(r.state, b);
      RespondAll(st, a + b) == Response(s.state, r.events + s.events, s.failed)
    decreases a
  {
    hide Respond;
    if a == [] {
      assert a + b == b && [] + RespondAll(st, b).events == RespondAll(st, b).events;
    } else {
      var first := Respond(st, a[0]);
      assert (a + b)[0] == a[0] && (a + b)[1..] == a[1..] + b;
      RespondAllAppend(first.state, a[1..], b);
      var r := RespondAll(first.state, a[1..]);
      Assoc(first.events, r.events, RespondAll(r.state, b).events);
    }
  }

  lemma RespondOne(st: State, cb: Callback)
    ensures RespondAll(st, [cb]) == Respond(st, cb)
  {
  }

  lemma {:induction false} RespondDeltas(st: State, chunks: seq<Chunk>)
    requires st.round.Some?
    ensures
      var f := FoldDeltas(st.round.value, chunks);
      RespondAll(st, Deltas(chunks)) == Response(st.(round := Some(f.state)), f.events, false)
    decreases chunks
  {
    hide HandleDelta;
    if chunks != [] {
      var a := HandleDelta(st.round.value, chunks[0].reasoning, chunks[0].text);
      RespondDeltas(st.(round := Some(a.state)), chunks[1..]);
      assert Deltas(chunks)[1..] == Deltas(chunks[1..]);
    }
  }

  /** Up to and including the assistant message: the content blocks, all closed. */
  lemma MessageEmission(st: State, chunks: seq<Chunk>, calls: nat)
    ensures
      var blocks := ContentBlocks(st.blockIndex, chunks);
      var next := st.blockIndex + |blocks|;
      var r := RespondAll(st, [RoundStart] + Deltas(chunks) + [AssistantMessage(calls)]);
      && !r.failed && r.events == AllEvents(blocks)
      && r.state == State(next, st.rounds, r.state.round, next, calls)
  {
    hide ContentBlocks, AllEvents, Deltas, FoldDeltas, RespondAll;
    var started := Respond(st, RoundStart).state;
    RespondOne(st, RoundStart);
    RespondDeltas(started, chunks);
    RespondAllAppend(st, [RoundStart], Deltas(chunks));
    var mid := RespondAll(st, [RoundStart] + Deltas(chunks));
    RespondOne(mid.state, AssistantMessage(calls));
    RespondAllAppend(st, [RoundStart] + Deltas(chunks), [AssistantMessage(calls)]);
    assert [] + FoldDeltas(started.round.value, chunks).events == FoldDeltas(started.round.value, chunks).events;
    NewRoundEmission(st.blockIndex, chunks);
  }

  /**
   * The tool part of a round. The block index moves on exactly when the result with the
   * highest index comes in, whether or not it is the last to arrive.
   */
  lemma {:induction false} ToolEmission(st: State, calls: seq<Call>, steps: seq<ToolStep>)
    requires forall k :: 0 <= k < |steps| ==> steps[k].i < |calls|
    requires st.toolCallCount == |calls|
    ensures
      var r := RespondAll(st, ToolCallbacks(calls, steps));
      && !r.failed && r.events == AllEvents(StepBlocks(st.toolBase, calls, steps))
      && r.state == st.(blockIndex :=
           if LastReturned(calls, steps) then st.toolBase + 2 * |calls| else st.blockIndex)
    decreases steps
  {
    if steps != [] {
      hide LastReturned, BlockEvents, Respond;
      var rest := steps[1..];
      var cbs, blocks := ToolCallbacks(calls, steps), StepBlocks(st.toolBase, calls, steps);
      assert cbs[1..] == ToolCallbacks(calls, rest);
      assert blocks[1..] == StepBlocks(st.toolBase, calls, rest);
      var first := Respond(st, cbs[0]);
      StepAnswered(st, calls[steps[0].i], steps[0]);
      ToolEmission(first.state, calls, rest);
      LastReturnedCons(calls, steps);
    }
  }

  lemma StepAnswered(st: State, c: Call, step: ToolStep)
    ensures
      var r, n := Respond(st, StepCallback(c, step)), st.toolCallCount;
      && r.events == BlockEvents(StepBlock(st.toolBase, n, c, step)) && !r.failed
      && r.state == st.(blockIndex :=
           if step.Return? && step.i == n - 1 then st.toolBase + 2 * n else st.blockIndex)
  {
    hide ToolUseEvents, ToolResultEvents;
  }

  lemma LastReturnedCons(calls: seq<Call>, steps: seq<ToolStep>)
    requires steps != []
    ensures LastReturned(calls, steps)
            <==> (steps[0].Return? && steps[0].i == |calls| - 1) || LastReturned(calls, steps[1..])
  {
    var rest := steps[1..];
    assert forall k :: 0 <= k < |rest| ==> rest[k] == steps[k + 1];
    assert forall k :: 1 <= k < |steps| ==> steps[k] == rest[k - 1];
  }

  /** One round emits exactly its blocks and leaves the next free index. */
  lemma TurnEmission(st: State, turn: Turn, number: nat)
    requires StepsInRange(turn)
    ensures
      var r := RespondAll(st, TurnCallbacks(turn, number));
      && !r.failed && r.events == AllEvents(TurnBlocks(st.blockIndex, turn))
      && r.state.blockIndex == NextBase(st.blockIndex, turn) && r.state.rounds == number + 1
  {
    hide ContentBlocks, StepBlocks, AllEvents, LastReturned, RespondAll, Deltas, ToolCallbacks;
    var head := [RoundStart] + Deltas(turn.chunks) + [AssistantMessage(|turn.calls|)];
    var tools := ToolCallbacks(turn.calls, turn.steps);
    MessageEmission(st, turn.chunks, |turn.calls|);
    var r := RespondAll(st, head);
    ToolEmission(r.state, turn.calls, turn.steps);
    var s := RespondAll(r.state, tools);
    RespondAllAppend(st, head, tools);
    RespondOne(s.state, RoundEnd(number));
    RespondAllAppend(st, head + tools, [RoundEnd(number)]);
    assert r.events + s.events + [] == r.events + s.events;
    AllEventsAppend(ContentBlocks(st.blockIndex, turn.chunks),
                    StepBlocks(ToolBase(st.blockIndex, turn), turn.calls, turn.steps));
  }

  // --------------------------------------------------------------------- whole runs

  predicate InRange(turns: seq<Turn>) {
    forall k :: 0 <= k < |turns| ==> StepsInRange(turns[k])
  }

  function RunCallbacks(turns: seq<Turn>, number: nat): seq<Callback>
    requires InRange(turns)
  {
    if turns == [] then [] else TurnCallbacks(turns[0], number) + RunCallbacks(turns[1..], number + 1)
  }

  function RunBlocks(base: nat, turns: seq<Turn>): seq<WireBlock>
    requires InRange(turns)
    decreases turns
  {
    if turns == [] then [] else TurnBlocks(base, turns[0]) + RunBlocks(NextBase(base, turns[0]), turns[1..])
  }

  function RunNext(base: nat, turns: seq<Turn>): nat
    decreases turns
  {
    if turns == [] then base else RunNext(NextBase(base, turns[0]), turns[1..])
  }

  /** A whole request emits exactly the blocks of its rounds. */
  lemma {:induction false} RunEmission(st: State, turns: seq<Turn>, number: nat)
    requires InRange(turns)
    ensures
      var r := RespondAll(st, RunCallbacks(turns, number));
      && !r.failed && r.events == AllEvents(RunBlocks(st.blockIndex, turns))
      && r.state.blockIndex == RunNext(st.blockIndex, turns)
    decreases turns
  {
    hide TurnCallbacks, TurnBlocks, NextBase, AllEvents;
    if turns == [] {
      assert AllEvents([]) == [] by { NoEvents(); }
    } else {
      TurnEmission(st, turns[0], number);
      var r := RespondAll(st, TurnCallbacks(turns[0], number));
      RunEmission(r.state, turns[1..], number + 1);
      RespondAllAppend(st, TurnCallbacks(turns[0], number), RunCallbacks(turns[1..], number + 1));
      AllEventsAppend(TurnBlocks(st.blockIndex, turns[0]), RunBlocks(NextBase(st.blockIndex, turns[0]), turns[1..]));
    }
  }

  lemma NoEvents()
    ensures AllEvents([]) == []
  {
  }
}
