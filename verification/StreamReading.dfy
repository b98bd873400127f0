/**
 * A turn read off its event stream without a machine: what every tool got as input, what
 * every result said, and what stands in the timeline, each said of the events alone. The
 * reassembler returns exactly the readings.
 */
module StreamReading {
  import opened Octets
  import opened Protocol
  import opened Reassembler
  import opened ReassemblyLaws
  import FlushOrder

  // ---------------------------------------------------------------- one tool, one result

  /** Id and name of the last tool_use block started at `i`. */
  function ToolAt(es: seq<Event>, i: int): Tag {
    if es == [] then Tag("", "") else
      match es[|es| - 1]
      case BlockStart(j, ToolUseBlock(id, name)) => if j == i then Tag(id, name) else ToolAt(es[..|es| - 1], i)
      case _ => ToolAt(es[..|es| - 1], i)
  }

  /** Every input delta at `i` since the last tool_use block started there, in order. */
  function InputOf(es: seq<Event>, i: int): string {
    if es == [] then "" else
      match es[|es| - 1]
      case BlockStart(j, ToolUseBlock(_, _)) => if j == i then "" else InputOf(es[..|es| - 1], i)
      case BlockDelta(j, InputDelta(json)) => InputOf(es[..|es| - 1], i) + if j == i then json else ""
      case _ => InputOf(es[..|es| - 1], i)
  }

  /** The id the last tool_result block started at `i` answers. */
  function AnsweredAt(es: seq<Event>, i: int): string {
    if es == [] then "" else
      match es[|es| - 1]
      case BlockStart(j, ToolResultBlock(id, _)) => if j == i then id else AnsweredAt(es[..|es| - 1], i)
      case _ => AnsweredAt(es[..|es| - 1], i)
  }

  /** Every result delta at `i` since the last tool_result block started there, in order. */
  function OutputOf(es: seq<Event>, i: int): string {
    if es == [] then "" else
      match es[|es| - 1]
      case BlockStart(j, ToolResultBlock(_, _)) => if j == i then "" else OutputOf(es[..|es| - 1], i)
      case BlockDelta(j, ResultDelta(text)) => OutputOf(es[..|es| - 1], i) + if j == i then text else ""
      case _ => OutputOf(es[..|es| - 1], i)
  }

  /** The call made at `i`, with the empty object for an input that says nothing. */
  function CallAt(es: seq<Event>, i: int): ToolCall {
    var input := InputOf(es, i);
    ToolCall(ToolAt(es, i).name, if input == "" then "{}" else input, ToolAt(es, i).id)
  }

  /** The execution of the result at `i`, if one of these calls has its id: the first that has. */
  function ExecutionAt(es: seq<Event>, i: int, calls: seq<ToolCall>): seq<Execution> {
    var id := AnsweredAt(es, i);
    match FirstMatch(calls, id)
    case None => []
    case Some(k) => [Execution(calls[k].name, calls[k].params, OutputOf(es, i), id)]
  }

  // ------------------------------------------------------------------- what is finished

  /** The calls whose blocks were stopped, in that order. */
  function FinishedOf(es: seq<Event>): seq<ToolCall> {
    if es == [] then [] else
      var before, e := es[..|es| - 1], es[|es| - 1];
      FinishedOf(before) + if e.BlockStop? && ToolInFlight(before, e.index) then [CallAt(before, e.index)] else []
  }

  /** A stop that no tool takes and a result does. */
  predicate StopsResult(before: seq<Event>, e: Event) {
    e.BlockStop? && !ToolInFlight(before, e.index) && ResultInFlight(before, e.index)
  }

  function ExecutionsOf(es: seq<Event>): seq<Execution> {
    if es == [] then [] else
      var before, e := es[..|es| - 1], es[|es| - 1];
      ExecutionsOf(before) + if StopsResult(before, e) then ExecutionAt(before, e.index, FinishedOf(before)) else []
  }

  // ------------------------------------------------------------------ text and timeline

  /** The start of a block of a type the reader knows. */
  predicate StartsBlock(e: Event) {
    e.BlockStart? && !e.block.UnknownBlock?
  }

  /** A stop that neither a tool nor a result takes. */
  predicate StopsContent(before: seq<Event>, e: Event) {
    e.BlockStop? && !ToolInFlight(before, e.index) && !ResultInFlight(before, e.index)
  }

  /** The text block that is open, by index. */
  function OpenText(es: seq<Event>): Option<int> {
    if es == [] then None else
      var before, e := es[..|es| - 1], es[|es| - 1];
      if StartsBlock(e) then (if e.block.TextBlock? then Some(e.index) else None)
      else if StopsContent(before, e) && e.index == Sentinel(OpenText(before)) then None
      else OpenText(before)
  }

  predicate EndsText(before: seq<Event>, e: Event) {
    StartsBlock(e) || (StopsContent(before, e) && e.index == Sentinel(OpenText(before)))
  }

  predicate EndsThinking(before: seq<Event>, e: Event) {
    || StartsBlock(e)
    || (StopsContent(before, e) && e.index != Sentinel(OpenText(before)) && e.index == Sentinel(OpenThinking(before)))
  }

  /** The text since a segment last ended. */
  function PendingText(es: seq<Event>): string {
    if es == [] then "" else
      var before, e := es[..|es| - 1], es[|es| - 1];
      if EndsText(before, e) then ""
      else PendingText(before) + if e.BlockDelta? && e.delta.TextDelta? then e.delta.text else ""
  }

  /** The thinking since a segment last ended. */
  function PendingThinking(es: seq<Event>): string {
    if es == [] then "" else
      var before, e := es[..|es| - 1], es[|es| - 1];
      if EndsThinking(before, e) then ""
      else PendingThinking(before)
           + if e.BlockDelta? && e.delta.ThinkingDelta? && e.index == Sentinel(OpenThinking(before))
             then e.delta.text else ""
  }

  function TextSegment(text: string): seq<Item> {
    if text == "" then [] else [TextItem(text)]
  }

  function ThinkingSegment(text: string): seq<Item> {
    if text == "" then [] else [ThinkingItem(text)]
  }

  /** What an event adds to the timeline: the segments it ends, or an execution. */
  function Ended(before: seq<Event>, e: Event): seq<Item> {
    var text, thinking := TextSegment(PendingText(before)), ThinkingSegment(PendingThinking(before));
    if StopsResult(before, e) then Shown(ExecutionAt(before, e.index, FinishedOf(before)))
    else if StartsBlock(e) && e.block.TextBlock? then thinking + text
    else (if EndsText(before, e) then text else []) + (if EndsThinking(before, e) then thinking else [])
  }

  function TimelineOf(es: seq<Event>): seq<Item> {
    if es == [] then [] else TimelineOf(es[..|es| - 1]) + Ended(es[..|es| - 1], es[|es| - 1])
  }

  // ---------------------------------------------------------------------- one event more

  lemma ReadTool(es: seq<Event>, e: Event, i: int)
    ensures ToolAt(es + [e], i) ==
              if e.BlockStart? && e.block.ToolUseBlock? && e.index == i then Tag(e.block.id, e.block.name) else ToolAt(es, i)
    ensures InputOf(es + [e], i) ==
              if e.BlockStart? && e.block.ToolUseBlock? && e.index == i then ""
              else if e.BlockDelta? && e.delta.InputDelta? && e.index == i then InputOf(es, i) + e.delta.json
              else InputOf(es, i)
  {
  }

  lemma ReadResult(es: seq<Event>, e: Event, i: int)
    ensures AnsweredAt(es + [e], i) ==
              if e.BlockStart? && e.block.ToolResultBlock? && e.index == i then e.block.toolUseID else AnsweredAt(es, i)
    ensures OutputOf(es + [e], i) ==
              if e.BlockStart? && e.block.ToolResultBlock? && e.index == i then ""
              else if e.BlockDelta? && e.delta.ResultDelta? && e.index == i then OutputOf(es, i) + e.delta.text
              else OutputOf(es, i)
  {
  }

  lemma ReadFinished(es: seq<Event>, e: Event)
    ensures FinishedOf(es + [e]) ==
              FinishedOf(es) + if e.BlockStop? && ToolInFlight(es, e.index) then [CallAt(es, e.index)] else []
    ensures ExecutionsOf(es + [e]) ==
              ExecutionsOf(es) + if StopsResult(es, e) then ExecutionAt(es, e.index, FinishedOf(es)) else []
  {
    assert (es + [e])[..|es|] == es;
  }

  lemma ReadContent(es: seq<Event>, e: Event)
    ensures OpenText(es + [e]) ==
              if StartsBlock(e) then (if e.block.TextBlock? then Some(e.index) else None)
              else if StopsContent(es, e) && e.index == Sentinel(OpenText(es)) then None
              else OpenText(es)
    ensures PendingText(es + [e]) ==
              if EndsText(es, e) then ""
              else PendingText(es) + if e.BlockDelta? && e.delta.TextDelta? then e.delta.text else ""
    ensures PendingThinking(es + [e]) ==
              if EndsThinking(es, e) then ""
              else PendingThinking(es)
                   + if e.BlockDelta? && e.delta.ThinkingDelta? && e.index == Sentinel(OpenThinking(es))
                     then e.delta.text else ""
    ensures TimelineOf(es + [e]) == TimelineOf(es) + Ended(es, e)
  {
    assert (es + [e])[..|es|] == es;
  }

  // ------------------------------------------------------------------------- in flight

  predicate ToolReads(t: InflightTool, es: seq<Event>, i: int) {
    t.name == ToolAt(es, i).name && t.toolUseID == ToolAt(es, i).id && Concat(t.params) == InputOf(es, i)
  }

  predicate ResultReads(t: InflightResult, es: seq<Event>, i: int) {
    t.toolUseID == AnsweredAt(es, i) && Concat(t.parts) == OutputOf(es, i)
  }

  ghost predicate InflightReads(s: State, es: seq<Event>) {
    && (forall i :: i in s.tools ==> ToolReads(s.tools[i], es, i))
    && (forall i :: i in s.results ==> ResultReads(s.results[i], es, i))
  }

  lemma StartReads(s: State, es: seq<Event>, i: int, block: Block)
    requires InflightReads(s, es)
    ensures InflightReads(OnStart(s, i, block), es + [BlockStart(i, block)])
  {
    hide CloseText, CloseThinking, Concat, ToolAt, InputOf, AnsweredAt, OutputOf;
    ClosingKeepsInflight(s);
    ClosingKeepsInflight(CloseText(s));
    ClosingKeepsInflight(CloseThinking(s));
    EmptyConcat();
    var e, t := BlockStart(i, block), OnStart(s, i, block);
    forall j | j in t.tools
      ensures ToolReads(t.tools[j], es + [e], j)
    {
      ReadTool(es, e, j);
    }
    forall j | j in t.results
      ensures ResultReads(t.results[j], es + [e], j)
    {
      ReadResult(es, e, j);
    }
  }

  lemma DeltaReads(s: State, es: seq<Event>, i: int, delta: Delta)
    requires InflightReads(s, es)
    ensures InflightReads(OnDelta(s, i, delta), es + [BlockDelta(i, delta)])
  {
    hide Concat, ToolAt, InputOf, AnsweredAt, OutputOf;
    var e, t := BlockDelta(i, delta), OnDelta(s, i, delta);
    forall j | j in t.tools
      ensures ToolReads(t.tools[j], es + [e], j)
    {
      ReadTool(es, e, j);
      if delta.InputDelta? {
        ConcatSnoc(s.tools[j].params, delta.json);
      }
    }
    forall j | j in t.results
      ensures ResultReads(t.results[j], es + [e], j)
    {
      ReadResult(es, e, j);
      if delta.ResultDelta? {
        ConcatSnoc(s.results[j].parts, delta.text);
      }
    }
  }

  /** An event that is neither a start nor a delta only takes away. */
  lemma OtherReads(s: State, es: seq<Event>, e: Event)
    requires InflightReads(s, es) && !e.BlockStart? && !e.BlockDelta?
    ensures InflightReads(Handle(s, e), es + [e])
  {
    hide CloseText, CloseThinking, AddTool, AddResult, Concat, ToolAt, InputOf, AnsweredAt, OutputOf;
    ClosingKeepsInflight(s);
    var t := Handle(s, e);
    forall j | j in t.tools
      ensures ToolReads(t.tools[j], es + [e], j)
    {
      ReadTool(es, e, j);
    }
    forall j | j in t.results
      ensures ResultReads(t.results[j], es + [e], j)
    {
      ReadResult(es, e, j);
    }
  }

  lemma FinishedReads(t: InflightTool, es: seq<Event>, i: int)
    requires ToolReads(t, es, i)
    ensures FinishedCall(t) == CallAt(es, i)
  {
  }

  lemma MatchedReads(tools: seq<ToolCall>, t: InflightResult, es: seq<Event>, i: int)
    requires ResultReads(t, es, i)
    ensures
      match Matched(tools, t)
      case None => ExecutionAt(es, i, tools) == []
      case Some(x) => ExecutionAt(es, i, tools) == [x]
  {
  }

  // ---------------------------------------------------------------------------- output

  ghost predicate OutputReads(s: State, es: seq<Event>) {
    && s.result.tools == FinishedOf(es)
    && s.result.executions == ExecutionsOf(es)
    && s.result.timeline == TimelineOf(es)
    && Concat(s.curText) == PendingText(es)
    && Concat(s.curThinking) == PendingThinking(es)
    && s.textIndex == Sentinel(OpenText(es))
  }

  /** What closing a segment does, in terms of what is pending. */
  lemma ClosedSegments(s: State)
    ensures
      var t := CloseText(s);
      && t.result == s.result.(timeline := s.result.timeline + TextSegment(Concat(s.curText)))
      && t.curText == [] && t.curThinking == s.curThinking
    ensures
      var t := CloseThinking(s);
      && t.result == s.result.(timeline := s.result.timeline + ThinkingSegment(Concat(s.curThinking)))
      && t.curThinking == [] && t.curText == s.curText
  {
    assert s.result.timeline + [] == s.result.timeline;
  }

  lemma StartOutput(s: State, es: seq<Event>, i: int, block: Block)
    requires OutputReads(s, es)
    ensures OutputReads(OnStart(s, i, block), es + [BlockStart(i, block)])
  {
    hide CloseText, CloseThinking, Concat, FinishedOf, ExecutionsOf, TimelineOf, PendingText, PendingThinking,
         OpenText, OpenThinking, TextSegment, ThinkingSegment;
    var e := BlockStart(i, block);
    ReadFinished(es, e);
    ReadContent(es, e);
    EmptyConcat();
    ClosingKeepsInflight(s);
    ClosedSegments(s);
    ClosingKeepsInflight(CloseText(s));
    ClosedSegments(CloseText(s));
    ClosingKeepsInflight(CloseThinking(s));
    ClosedSegments(CloseThinking(s));
    var text, thinking := TextSegment(PendingText(es)), ThinkingSegment(PendingThinking(es));
    Assoc(s.result.timeline, text, thinking);
    Assoc(s.result.timeline, thinking, text);
    NothingAdded(s);
  }

  lemma NothingAdded(s: State)
    ensures s.result.tools + [] == s.result.tools && s.result.executions + [] == s.result.executions
    ensures s.result.timeline + [] == s.result.timeline
    ensures s.result.timeline + ([] + []) == s.result.timeline
  {
  }

  lemma DeltaOutput(s: State, es: seq<Event>, i: int, delta: Delta)
    requires Routes(s, es) && OutputReads(s, es)
    ensures OutputReads(OnDelta(s, i, delta), es + [BlockDelta(i, delta)])
  {
    hide Concat, FinishedOf, ExecutionsOf, TimelineOf, PendingText, PendingThinking, OpenText, OpenThinking,
         TextSegment, ThinkingSegment, ToolInFlight, ResultInFlight;
    var e := BlockDelta(i, delta);
    ReadFinished(es, e);
    ReadContent(es, e);
    NothingAdded(s);
    assert PendingText(es) + "" == PendingText(es) && PendingThinking(es) + "" == PendingThinking(es);
    match delta
    case TextDelta(text) => ConcatSnoc(s.curText, text);
    case ThinkingDelta(text) => ConcatSnoc(s.curThinking, text);
    case _ =>
  }

  lemma StopOutput(s: State, es: seq<Event>, i: int)
    requires Routes(s, es) && InflightReads(s, es) && OutputReads(s, es)
    ensures OutputReads(OnStop(s, i), es + [BlockStop(i)])
  {
    hide CloseText, CloseThinking, Concat, FinishedOf, ExecutionsOf, TimelineOf, PendingText, PendingThinking,
         OpenText, OpenThinking, TextSegment, ThinkingSegment, ToolInFlight, ResultInFlight, FinishedCall, CallAt,
         ExecutionAt, ToolReads, ResultReads;
    var e := BlockStop(i);
    ReadFinished(es, e);
    ReadContent(es, e);
    EmptyConcat();
    NothingAdded(s);
    ClosingKeepsInflight(s);
    ClosedSegments(s);
    assert PendingText(es) + "" == PendingText(es) && PendingThinking(es) + "" == PendingThinking(es);
    var text, thinking := TextSegment(PendingText(es)), ThinkingSegment(PendingThinking(es));
    assert text + [] == text && [] + thinking == thinking;
    if i in s.tools {
      FinishedReads(s.tools[i], es, i);
    } else if i in s.results {
      ResultOutput(s, es, i);
    }
  }

  lemma ResultOutput(s: State, es: seq<Event>, i: int)
    requires i in s.results && ResultReads(s.results[i], es, i)
    ensures
      var x, r := ExecutionAt(es, i, s.result.tools), AddResult(s.result, s.results[i]);
      r == s.result.(executions := s.result.executions + x, timeline := s.result.timeline + Shown(x))
  {
    MatchedReads(s.result.tools, s.results[i], es, i);
    NothingAdded(s);
    ShownOne();
  }

  lemma ShownOne()
    ensures Shown([]) == [] && forall x :: Shown([x]) == [ToolItem(x)]
  {
    forall x ensures Shown([x]) == [ToolItem(x)] {
      assert [x][..0] == [];
    }
  }

  lemma HandleReads(s: State, es: seq<Event>, e: Event)
    requires Routes(s, es) && InflightReads(s, es) && OutputReads(s, es)
    ensures InflightReads(Handle(s, e), es + [e]) && OutputReads(Handle(s, e), es + [e])
  {
    hide OnStart, OnDelta, OnStop, InflightReads;
    match e
    case BlockStart(i, block) =>
      StartReads(s, es, i, block);
      StartOutput(s, es, i, block);
    case BlockDelta(i, delta) =>
      DeltaReads(s, es, i, delta);
      DeltaOutput(s, es, i, delta);
    case BlockStop(i) =>
      OtherReads(s, es, e);
      StopOutput(s, es, i);
    case _ =>
      OtherReads(s, es, e);
      OtherOutput(s, es, e);
  }

  lemma OtherOutput(s: State, es: seq<Event>, e: Event)
    requires OutputReads(s, es) && !e.BlockStart? && !e.BlockDelta? && !e.BlockStop?
    ensures OutputReads(Handle(s, e), es + [e])
  {
    hide Concat, FinishedOf, ExecutionsOf, TimelineOf, PendingText, PendingThinking, OpenText, OpenThinking,
         TextSegment, ThinkingSegment;
    ReadFinished(es, e);
    ReadContent(es, e);
    NothingAdded(s);
    assert PendingText(es) + "" == PendingText(es) && PendingThinking(es) + "" == PendingThinking(es);
  }

  /** At every point of every stream the reassembler holds exactly the readings. */
  lemma {:induction false} RunReads(es: seq<Event>)
    ensures InflightReads(Run(INITIAL, es), es) && OutputReads(Run(INITIAL, es), es)
  {
    hide Handle, InflightReads, OutputReads;
    if es == [] {
      NothingRead();
    } else {
      var before, e := es[..|es| - 1], es[|es| - 1];
      RunReads(before);
      RunRoutes(before);
      HandleReads(Run(INITIAL, before), before, e);
      assert before + [e] == es;
    }
  }

  lemma NothingRead()
    ensures InflightReads(INITIAL, []) && OutputReads(INITIAL, [])
  {
    EmptyConcat();
  }

  // -------------------------------------------------------------------- the whole turn

  /** The calls still in flight, in some order of their indices. */
  function CallsAt(es: seq<Event>, order: seq<int>): seq<ToolCall> {
    if order == [] then [] else CallsAt(es, order[..|order| - 1]) + [CallAt(es, order[|order| - 1])]
  }

  /** The executions of the results still in flight, in some order of their indices. */
  function ExecutionsAt(es: seq<Event>, order: seq<int>, calls: seq<ToolCall>): seq<Execution> {
    if order == [] then []
    else ExecutionsAt(es, order[..|order| - 1], calls) + ExecutionAt(es, order[|order| - 1], calls)
  }

  /** Each index with a tool, or a result, in flight, once. */
  ghost predicate ListsTools(es: seq<Event>, order: seq<int>) {
    && (forall j, k :: 0 <= j < k < |order| ==> order[j] != order[k])
    && (forall i :: i in order <==> ToolInFlight(es, i))
  }

  ghost predicate ListsResults(es: seq<Event>, order: seq<int>) {
    && (forall j, k :: 0 <= j < k < |order| ==> order[j] != order[k])
    && (forall i :: i in order <==> ResultInFlight(es, i))
  }

  /** The turn of a list of events, every field of it read off the events. */
  function Reading(es: seq<Event>, error: string, tools: seq<int>, results: seq<int>): Parsed {
    var calls := FinishedOf(es) + CallsAt(es, tools);
    var late := ExecutionsAt(es, results, calls);
    Parsed(StreamIDOf(es), ThinkingTaken(es), TextOf(es), Names(Starts(es)), calls, ExecutionsOf(es) + late,
           TimelineOf(es) + TextSegment(PendingText(es)) + ThinkingSegment(PendingThinking(es)) + Shown(late), error)
  }

  lemma {:induction false} CallsRead(s: State, es: seq<Event>, order: seq<int>)
    requires InflightReads(s, es) && forall k :: 0 <= k < |order| ==> order[k] in s.tools
    ensures Values(Calls(s.tools), order) == CallsAt(es, order)
  {
    if order != [] {
      hide CallAt, FinishedCall, ToolReads, ResultReads;
      CallsRead(s, es, order[..|order| - 1]);
      FinishedReads(s.tools[order[|order| - 1]], es, order[|order| - 1]);
    }
  }

  lemma {:induction false} ExecutionsRead(s: State, es: seq<Event>, order: seq<int>, calls: seq<ToolCall>)
    requires InflightReads(s, es) && forall k :: 0 <= k < |order| ==> order[k] in s.results
    ensures Somes(Values(AllMatched(calls, s.results), order)) == ExecutionsAt(es, order, calls)
  {
    if order == [] {
      assert Somes<Execution>([]) == [];
    } else {
      hide ExecutionAt, Matched, ToolReads, ResultReads, Somes;
      var m, init, i := AllMatched(calls, s.results), order[..|order| - 1], order[|order| - 1];
      ExecutionsRead(s, es, init, calls);
      MatchedReads(calls, s.results[i], es, i);
      SomesSnoc(Values(m, init), m[i]);
    }
  }

  lemma OrdersAreLists(s: State, es: seq<Event>, tools: seq<int>, results: seq<int>)
    requires Routes(s, es)
    ensures IsFlush(s, tools, results) <==> ListsTools(es, tools) && ListsResults(es, results)
  {
    hide ToolInFlight, ResultInFlight;
    OrderIsList(s.tools, tools);
    OrderIsList(s.results, results);
  }

  lemma OrderIsList<T>(m: map<int, T>, order: seq<int>)
    ensures IsOrder(order, m) <==>
              && (forall j, k :: 0 <= j < k < |order| ==> order[j] != order[k])
              && (forall i :: i in order <==> i in m)
  {
    assert forall k :: 0 <= k < |order| ==> order[k] in order;
  }

  /** Finishing a state that holds the readings of `es` gives their turn. */
  lemma FinalizedReads(s: State, es: seq<Event>, tools: seq<int>, results: seq<int>)
    requires Routes(s, es) && Conserves(s, es) && InflightReads(s, es) && OutputReads(s, es)
    requires s.result.streamID == StreamIDOf(es) && IsFlush(s, tools, results)
    ensures Finalized(s, tools, results) == Reading(es, s.result.error, tools, results)
  {
    hide Finalized, CloseText, CloseThinking, Concat, FinishedOf, ExecutionsOf, TimelineOf, PendingText,
         PendingThinking, OpenText, OpenThinking, TextSegment, ThinkingSegment, ToolInFlight, ResultInFlight, TextOf,
         ThinkingTaken, Names, Starts, StreamIDOf, Values, Somes, Shown, AllMatched, CallsAt, ExecutionsAt,
         InflightReads;
    FlushOrder.FlushedOutput(s, tools, results);
    FinalizedConserves(s, es, tools, results);
    CallsRead(s, es, tools);
    ExecutionsRead(s, es, results, FlushOrder.AfterTools(s, tools));
    ClosedSegments(s);
    ClosedSegments(CloseText(s));
  }

  /**
   * The reading of a turn. For every stream, what the reassembler may return is exactly
   * what can be read off the events up to `message_stop`, for some order of the tools and
   * of the results that were left in flight. Every field of the turn is in it: each call
   * with all its own input, each execution with all its own output, and the timeline with
   * every segment where it ended.
   */
  lemma {:induction false} ReassemblesIff(events: seq<Event>, failure: string, r: Parsed)
    ensures
      var h, error := Handled(events), if MessageStop in events then "" else failure;
      Reassembles(events, failure, r) <==>
        exists tools, results :: ListsTools(h, tools) && ListsResults(h, results)
                                 && r == Reading(h, error, tools, results)
  {
    hide Finalized, Reading, IsFlush, ListsTools, ListsResults, Run, Routes, Conserves, InflightReads, OutputReads;
    var h, s := Handled(events), EndState(events, failure);
    EndReads(events, failure);
    forall tools, results
      ensures IsFlush(s, tools, results) <==> ListsTools(h, tools) && ListsResults(h, results)
    {
      OrdersAreLists(s, h, tools, results);
    }
    forall tools, results | IsFlush(s, tools, results)
      ensures Finalized(s, tools, results) == Reading(h, s.result.error, tools, results)
    {
      FinalizedReads(s, h, tools, results);
    }
  }

  lemma EndReads(events: seq<Event>, failure: string)
    ensures
      var s, h := EndState(events, failure), Handled(events);
      && Routes(s, h) && Conserves(s, h) && InflightReads(s, h) && OutputReads(s, h)
      && s.result.streamID == StreamIDOf(h) && s.result.error == if MessageStop in events then "" else failure
  {
    hide Run, Routes, Conserves, InflightReads, OutputReads, StreamIDOf;
    var h := Handled(events);
    RunRoutes(h);
    RunConserves(h);
    RunReads(h);
    RunStreamID(h);
    ErrorFree(h);
    HandledIsAllIff(events);
    ErrorIsUnread(Run(INITIAL, h), h, failure);
  }

  /** Nothing that is read depends on the error. */
  lemma ErrorIsUnread(s: State, es: seq<Event>, error: string)
    ensures
      var t := s.(result := s.result.(error := error));
      && (Routes(s, es) ==> Routes(t, es)) && (Conserves(s, es) ==> Conserves(t, es))
      && (InflightReads(s, es) ==> InflightReads(t, es)) && (OutputReads(s, es) ==> OutputReads(t, es))
  {
    hide ToolInFlight, ResultInFlight, OpenThinking, TextOf, ThinkingTaken, Names, Starts, TextItems, ThinkingItems,
         ToolItems, Concat, ToolReads, ResultReads, FinishedOf, ExecutionsOf, TimelineOf, PendingText,
         PendingThinking, OpenText;
  }
}
