/**
 * Rebuilding a turn from its events (reassemble.go): what each event does to the
 * reassembler's state, and the object that does it in place.
 */
module Reassembler {
  import opened Octets
  import opened Protocol

  datatype ToolCall = ToolCall(name: string, params: string, toolUseID: string)

  datatype Execution = Execution(name: string, params: string, result: string, toolUseID: string)

  datatype Item = ThinkingItem(text: string) | TextItem(text: string) | ToolItem(execution: Execution)

  datatype Parsed = Parsed(
    streamID: string, thinking: string, text: string, toolNames: seq<string>, tools: seq<ToolCall>,
    executions: seq<Execution>, timeline: seq<Item>, error: string)

  datatype InflightTool = InflightTool(name: string, toolUseID: string, params: seq<string>)

  datatype InflightResult = InflightResult(toolUseID: string, parts: seq<string>)

  const NONE := -1  // the index that stands for "no open block"

  datatype State = State(
    result: Parsed, curText: seq<string>, allText: seq<string>, curThinking: seq<string>, allThinking: seq<string>,
    tools: map<int, InflightTool>, results: map<int, InflightResult>, thinkingIndex: int, textIndex: int)

  const INITIAL := State(Parsed("", "", "", [], [], [], [], ""), [], [], [], [], map[], map[], NONE, NONE)

  // -------------------------------------------------------------- closing segments

  function CloseText(s: State): State {
    var text := Concat(s.curText);
    var t := s.(curText := [], textIndex := NONE);
    if text == "" then t
    else t.(allText := s.allText + [text], result := s.result.(timeline := s.result.timeline + [TextItem(text)]))
  }

  function CloseThinking(s: State): State {
    var text := Concat(s.curThinking);
    var t := s.(curThinking := [], thinkingIndex := NONE);
    if text == "" then t
    else t.(allThinking := s.allThinking + [text],
            result := s.result.(timeline := s.result.timeline + [ThinkingItem(text)]))
  }

  // ------------------------------------------------------------- tools and results

  function FinishedCall(t: InflightTool): ToolCall {
    var raw := Concat(t.params);
    ToolCall(t.name, if raw == "" then EMPTY_TOOL_INPUT else raw, t.toolUseID)
  }

  function AddTool(r: Parsed, t: InflightTool): Parsed {
    r.(tools := r.tools + [FinishedCall(t)])
  }

  /** The first finished call with that id. */
  function FirstMatch(tools: seq<ToolCall>, id: string): (k: Option<nat>)
    ensures k.Some? ==> k.value < |tools| && tools[k.value].toolUseID == id
                        && forall j :: 0 <= j < k.value ==> tools[j].toolUseID != id
    ensures k.None? ==> forall j :: 0 <= j < |tools| ==> tools[j].toolUseID != id
  {
    if tools == [] then None
    else if tools[0].toolUseID == id then Some(0)
    else
      var k := FirstMatch(tools[1..], id);
      if k.None? then None else Some(k.value + 1)
  }

  function Executed(call: ToolCall, res: InflightResult): Execution {
    Execution(call.name, call.params, Concat(res.parts), res.toolUseID)
  }

  function AddResult(r: Parsed, res: InflightResult): Parsed {
    var k := FirstMatch(r.tools, res.toolUseID);
    if k.None? then r else
      var exec := Executed(r.tools[k.value], res);
      r.(executions := r.executions + [exec], timeline := r.timeline + [ToolItem(exec)])
  }

  // ------------------------------------------------------------------ one event

  function OnStart(s: State, index: int, block: Block): State {
    match block
    case ToolUseBlock(id, name) =>
      var t := CloseThinking(CloseText(s));
      t.(result := t.result.(toolNames := t.result.toolNames + [name]),
         tools := t.tools[index := InflightTool(name, id, [])])
    case ToolResultBlock(id, _) =>
      var t := CloseThinking(CloseText(s));
      t.(results := t.results[index := InflightResult(id, [])])
    case TextBlock => CloseText(CloseThinking(s)).(textIndex := index)
    case ThinkingBlock => CloseThinking(CloseText(s)).(thinkingIndex := index)
    case UnknownBlock => s
  }

  function OnDelta(s: State, index: int, delta: Delta): State {
    match delta
    case TextDelta(text) => s.(curText := s.curText + [text])
    case ThinkingDelta(text) =>
      if index == s.thinkingIndex then s.(curThinking := s.curThinking + [text]) else s
    case InputDelta(json) =>
      if index in s.tools then
        s.(tools := s.tools[index := s.tools[index].(params := s.tools[index].params + [json])])
      else s
    case ResultDelta(text) =>
      if index in s.results then
        s.(results := s.results[index := s.results[index].(parts := s.results[index].parts + [text])])
      else s
    case UnknownDelta => s
  }

  function OnStop(s: State, index: int): State {
    if index in s.tools then s.(result := AddTool(s.result, s.tools[index]), tools := s.tools - {index})
    else if index in s.results then s.(result := AddResult(s.result, s.results[index]), results := s.results - {index})
    else if index == s.textIndex then CloseText(s)
    else if index == s.thinkingIndex then CloseThinking(s)
    else s
  }

  /** Every event but `message_stop`, which ends the stream. */
  function Handle(s: State, e: Event): State {
    match e
    case MessageStart(id) => s.(result := s.result.(streamID := id))
    case BlockStart(i, block) => OnStart(s, i, block)
    case BlockDelta(i, delta) => OnDelta(s, i, delta)
    case BlockStop(i) => OnStop(s, i)
    case _ => s
  }

  function Run(s: State, events: seq<Event>): State {
    if events == [] then s else Handle(Run(s, events[..|events| - 1]), events[|events| - 1])
  }

  // ------------------------------------------------------------------ end of stream

  /** An enumeration of a map's keys: the order an iteration over it happens to take. */
  ghost predicate IsOrder<T>(order: seq<int>, m: map<int, T>) {
    && (forall j, k :: 0 <= j < k < |order| ==> order[j] != order[k])
    && (forall k :: 0 <= k < |order| ==> order[k] in m)
    && (forall i :: i in m ==> i in order)
  }

  /** Finishing the tools still in flight, in the order given. */
  ghost function FlushTools(r: Parsed, tools: map<int, InflightTool>, order: seq<int>): Parsed
    requires forall k :: 0 <= k < |order| ==> order[k] in tools
  {
    if order == [] then r
    else AddTool(FlushTools(r, tools, order[..|order| - 1]), tools[order[|order| - 1]])
  }

  ghost function FlushResults(r: Parsed, results: map<int, InflightResult>, order: seq<int>): Parsed
    requires forall k :: 0 <= k < |order| ==> order[k] in results
  {
    if order == [] then r
    else AddResult(FlushResults(r, results, order[..|order| - 1]), results[order[|order| - 1]])
  }

  ghost predicate IsFlush(s: State, toolOrder: seq<int>, resultOrder: seq<int>) {
    IsOrder(toolOrder, s.tools) && IsOrder(resultOrder, s.results)
  }

  ghost function Finalized(s: State, toolOrder: seq<int>, resultOrder: seq<int>): Parsed
    requires IsFlush(s, toolOrder, resultOrder)
  {
    var t := CloseThinking(CloseText(s));
    var r := FlushResults(FlushTools(t.result, s.tools, toolOrder), s.results, resultOrder);
    r.(thinking := Concat(t.allThinking), text := Concat(t.allText))
  }

  /** The events before the one that ends the message. */
  function Handled(events: seq<Event>): (h: seq<Event>)
    ensures h <= events && MessageStop !in h
    ensures h != events ==> |h| < |events| && events[|h|] == MessageStop
  {
    if events == [] || events[0] == MessageStop then [] else [events[0]] + Handled(events[1..])
  }

  /** The state when the stream ends: an error counts only if no `message_stop` came first. */
  function EndState(events: seq<Event>, failure: string): State {
    var s := Run(INITIAL, Handled(events));
    if Handled(events) == events then s.(result := s.result.(error := failure)) else s
  }

  /** A possible result of reassembly; which one depends on the orders of the two flushes. */
  ghost predicate Reassembles(events: seq<Event>, failure: string, r: Parsed) {
    exists toolOrder, resultOrder ::
      && IsFlush(EndState(events, failure), toolOrder, resultOrder)
      && r == Finalized(EndState(events, failure), toolOrder, resultOrder)
  }

  // -------------------------------------------------------------------- the objects

  datatype NextEvent = Next(event: Event) | NoMoreEvents | Failed(error: string)

  /** A fixed slice of events, then a clean end or, with a non-empty text, an error. */
  class SliceSource {
    const events: seq<Event>
    const failure: string
    var next: nat

    constructor (events: seq<Event>, failure: string)
      ensures next == 0 && this.events == events && this.failure == failure
    {
      this.events, this.failure, next := events, failure, 0;
    }

    method Next() returns (r: NextEvent)
      requires next <= |events|
      modifies this
      ensures old(next) < |events| ==> r == NextEvent.Next(events[old(next)]) && next == old(next) + 1
      ensures old(next) == |events| ==> next == old(next)
      ensures old(next) == |events| ==> r == if failure == "" then NoMoreEvents else Failed(failure)
    {
      if next >= |events| {
        return if failure == "" then NoMoreEvents else Failed(failure);
      }
      r := NextEvent.Next(events[next]);
      next := next + 1;
    }
  }

  class Reassembler {
    var result: Parsed
    var curTextParts: seq<string>
    var allTextParts: seq<string>
    var curThinkingParts: seq<string>
    var allThinkingParts: seq<string>
    var tools: map<int, InflightTool>
    var results: map<int, InflightResult>
    var thinkingIndex: int
    var textIndex: int

    constructor ()
      ensures View() == INITIAL
    {
      result := Parsed("", "", "", [], [], [], [], "");
      curTextParts, allTextParts, curThinkingParts, allThinkingParts := [], [], [], [];
      tools, results, thinkingIndex, textIndex := map[], map[], NONE, NONE;
    }

    function View(): State
      reads this
    {
      State(result, curTextParts, allTextParts, curThinkingParts, allThinkingParts,
            tools, results, thinkingIndex, textIndex)
    }

    method CloseTextBlock()
      modifies this
      ensures View() == CloseText(old(View()))
    {
      FlushTextSegment();
      textIndex := NONE;
    }

    method FlushTextSegment()
      modifies this`curTextParts, this`allTextParts, this`result
      ensures View() == CloseText(old(View())).(textIndex := old(textIndex))
    {
      if |curTextParts| == 0 {
        return;
      }
      var text := Concat(curTextParts);
      curTextParts := [];
      if text == "" {
        return;
      }
      allTextParts := allTextParts + [text];
      result := result.(timeline := result.timeline + [TextItem(text)]);
    }

    method CloseThinkingBlock()
      modifies this
      ensures View() == CloseThinking(old(View()))
    {
      FlushThinkingSegment();
      thinkingIndex := NONE;
    }

    method FlushThinkingSegment()
      modifies this`curThinkingParts, this`allThinkingParts, this`result
      ensures View() == CloseThinking(old(View())).(thinkingIndex := old(thinkingIndex))
    {
      if |curThinkingParts| == 0 {
        return;
      }
      var thinking := Concat(curThinkingParts);
      curThinkingParts := [];
      if thinking == "" {
        return;
      }
      allThinkingParts := allThinkingParts + [thinking];
      result := result.(timeline := result.timeline + [ThinkingItem(thinking)]);
    }

    method FinalizeTool(t: InflightTool)
      modifies this`result
      ensures result == AddTool(old(result), t)
      ensures
        var input := Concat(t.params);
        result.tools == old(result.tools) + [ToolCall(t.name, if input == "" then "{}" else input, t.toolUseID)]
    {
      var rawJSON := Concat(t.params);
      if rawJSON == "" {
        rawJSON := EMPTY_TOOL_INPUT;
      }
      result := result.(tools := result.tools + [ToolCall(t.name, rawJSON, t.toolUseID)]);
    }

    method FinalizeResult(res: InflightResult)
      modifies this`result
      ensures result == AddResult(old(result), res)
      ensures
        var k := FirstMatch(result.tools, res.toolUseID);
        result.executions == old(result.executions)
          + if k.None? then [] else
              var call := result.tools[k.value];
              [Execution(call.name, call.params, Concat(res.parts), res.toolUseID)]
    {
      var resultText := Concat(res.parts);
      for i := 0 to |result.tools|
        invariant result == old(result)
        invariant forall j :: 0 <= j < i ==> result.tools[j].toolUseID != res.toolUseID
      {
        if result.tools[i].toolUseID != res.toolUseID {
          continue;
        }
        var exec := Execution(result.tools[i].name, result.tools[i].params, resultText, res.toolUseID);
        assert FirstMatch(result.tools, res.toolUseID) == Some(i);
        result := result.(executions := result.executions + [exec], timeline := result.timeline + [ToolItem(exec)]);
        return;
      }
    }

    method OnContentBlockStart(index: int, block: Block)
      modifies this
      ensures View() == OnStart(old(View()), index, block)
    {
      hide CloseText, CloseThinking;
      match block {
        case ToolUseBlock(id, name) =>
          CloseTextBlock();
          CloseThinkingBlock();
          result := result.(toolNames := result.toolNames + [name]);
          tools := tools[index := InflightTool(name, id, [])];
        case ToolResultBlock(id, _) =>
          CloseTextBlock();
          CloseThinkingBlock();
          results := results[index := InflightResult(id, [])];
        case TextBlock =>
          CloseThinkingBlock();
          CloseTextBlock();
          textIndex := index;
        case ThinkingBlock =>
          CloseTextBlock();
          CloseThinkingBlock();
          thinkingIndex := index;
        case UnknownBlock =>
      }
    }

    method OnContentBlockDelta(index: int, delta: Delta)
      modifies this
      ensures View() == OnDelta(old(View()), index, delta)
    {
      match delta {
        case TextDelta(text) =>
          curTextParts := curTextParts + [text];
        case ThinkingDelta(text) =>
          if index == thinkingIndex {
            curThinkingParts := curThinkingParts + [text];
          }
        case InputDelta(json) =>
          if index in tools {
            var t := tools[index];
            tools := tools[index := t.(params := t.params + [json])];
          }
        case ResultDelta(text) =>
          if index in results {
            var res := results[index];
            results := results[index := res.(parts := res.parts + [text])];
          }
        case UnknownDelta =>
      }
    }

    method OnContentBlockStop(index: int)
      modifies this
      ensures View() == OnStop(old(View()), index)
    {
      hide CloseText, CloseThinking, AddTool, AddResult;
      if index in tools {
        FinalizeTool(tools[index]);
        tools := tools - {index};
        return;
      }
      if index in results {
        FinalizeResult(results[index]);
        results := results - {index};
        return;
      }
      if index == textIndex {
        CloseTextBlock();
        return;
      }
      if index == thinkingIndex {
        CloseThinkingBlock();
      }
    }

    /** Finishes what is in flight, in whatever order the maps yield their keys. */
    method FlushAll() returns (ghost toolOrder: seq<int>, ghost resultOrder: seq<int>)
      modifies this
      ensures
        var s, t := old(View()), CloseThinking(CloseText(old(View())));
        && IsFlush(s, toolOrder, resultOrder)
        && View() == t.(tools := map[], results := map[],
             result := FlushResults(FlushTools(t.result, s.tools, toolOrder), s.results, resultOrder))
    {
      hide CloseText, CloseThinking, FlushTools, FlushResults;
      ClosingKeepsInflight(View());
      ClosingKeepsInflight(CloseText(View()));
      CloseTextBlock();
      CloseThinkingBlock();
      toolOrder := FlushInflightTools();
      resultOrder := FlushInflightResults();
    }

    method FlushInflightTools() returns (ghost order: seq<int>)
      modifies this`tools, this`result
      ensures IsOrder(order, old(tools)) && tools == map[]
      ensures result == FlushTools(old(result), old(tools), order)
    {
      hide AddTool;
      ghost var all := tools;
      order := [];
      var keys := tools.Keys;
      while keys != {}
        invariant keys == tools.Keys
        invariant tools.Keys <= all.Keys && forall i :: i in tools ==> tools[i] == all[i]
        invariant forall j, k :: 0 <= j < k < |order| ==> order[j] != order[k]
        invariant forall k :: 0 <= k < |order| ==> order[k] in all && order[k] !in tools
        invariant forall i :: i in all ==> i in order || i in tools
        invariant result == FlushTools(old(result), all, order)
        decreases keys
      {
        ghost var some := AnyOf(keys);
        var idx :| idx in keys;
        FinalizeTool(tools[idx]);
        tools, keys := tools - {idx}, keys - {idx};
        assert (order + [idx])[..|order|] == order;
        order := order + [idx];
      }
    }

    method FlushInflightResults() returns (ghost order: seq<int>)
      modifies this`results, this`result
      ensures IsOrder(order, old(results)) && results == map[]
      ensures result == FlushResults(old(result), old(results), order)
    {
      hide AddResult;
      ghost var all := results;
      order := [];
      var keys := results.Keys;
      while keys != {}
        invariant keys == results.Keys
        invariant results.Keys <= all.Keys && forall i :: i in results ==> results[i] == all[i]
        invariant forall j, k :: 0 <= j < k < |order| ==> order[j] != order[k]
        invariant forall k :: 0 <= k < |order| ==> order[k] in all && order[k] !in results
        invariant forall i :: i in all ==> i in order || i in results
        invariant result == FlushResults(old(result), all, order)
        decreases keys
      {
        ghost var some := AnyOf(keys);
        var idx :| idx in keys;
        FinalizeResult(results[idx]);
        results, keys := results - {idx}, keys - {idx};
        assert (order + [idx])[..|order|] == order;
        order := order + [idx];
      }
    }

    method Finalize() returns (ghost toolOrder: seq<int>, ghost resultOrder: seq<int>)
      modifies this
      ensures IsFlush(old(View()), toolOrder, resultOrder)
      ensures result == Finalized(old(View()), toolOrder, resultOrder)
    {
      hide CloseText, CloseThinking, FlushTools, FlushResults;
      toolOrder, resultOrder := FlushAll();
      result := result.(thinking := Concat(allThinkingParts));
      result := result.(text := Concat(allTextParts));
    }

    method HandleEvent(e: Event)
      requires e != MessageStop
      modifies this
      ensures View() == Handle(old(View()), e)
    {
      hide OnStart, OnDelta, OnStop;
      match e {
        case MessageStart(id) => result := result.(streamID := id);
        case BlockStart(i, block) => OnContentBlockStart(i, block);
        case BlockDelta(i, delta) => OnContentBlockDelta(i, delta);
        case BlockStop(i) => OnContentBlockStop(i);
        case _ =>
      }
    }
  }

  lemma AnyOf<T>(keys: set<T>) returns (x: T)
    requires keys != {}
    ensures x in keys
  {
    x :| x in keys;
  }

  /** Closing a segment touches that segment and the timeline, nothing in flight. */
  lemma ClosingKeepsInflight(s: State)
    ensures
      var t := CloseText(s);
      && t == s.(curText := [], allText := t.allText, textIndex := NONE, result := t.result)
      && t.result == s.result.(timeline := t.result.timeline)
    ensures
      var t := CloseThinking(s);
      && t == s.(curThinking := [], allThinking := t.allThinking, thinkingIndex := NONE, result := t.result)
      && t.result == s.result.(timeline := t.result.timeline)
  {
  }

  lemma RunSnoc(s: State, events: seq<Event>, e: Event)
    ensures Run(s, events + [e]) == Handle(Run(s, events), e)
  {
  }

  /** Drains a source and rebuilds the turn. */
  method Reassemble(events: seq<Event>, failure: string) returns (r: Parsed)
    ensures Reassembles(events, failure, r)
  {
    hide Handle, Run, Finalized, IsFlush;
    var src := new SliceSource(events, failure);
    var re := new Reassembler();
    ghost var handled: seq<Event> := [];
    assert Run(INITIAL, []) == INITIAL by { NothingRun(); }
    while true
      invariant fresh(src) && fresh(re) && src.events == events && src.failure == failure
      invariant src.next == |handled| <= |events| && handled == events[..src.next] && MessageStop !in handled
      invariant re.View() == Run(INITIAL, handled)
      decreases |events| - src.next
    {
      var next := src.Next();
      if !next.Next? {
        assert handled == events;
        HandledIs(events, events);
        if next.Failed? {
          re.result := re.result.(error := next.error);
        }
        assert EndState(events, failure) == re.View() by { ErrorFree(handled); }
        break;
      }
      if next.event == MessageStop {
        HandledIs(events, handled);
        break;
      }
      RunSnoc(INITIAL, handled, next.event);
      re.HandleEvent(next.event);
      handled := handled + [next.event];
    }
    ghost var s := re.View();
    assert s == EndState(events, failure);
    ghost var toolOrder, resultOrder := re.Finalize();
    r := re.result;
  }

  lemma NothingRun()
    ensures Run(INITIAL, []) == INITIAL
  {
  }

  lemma {:induction false} HandledIs(events: seq<Event>, h: seq<Event>)
    requires h <= events && MessageStop !in h
    requires h != events ==> events[|h|] == MessageStop
    ensures Handled(events) == h
  {
  }

  /** Handling events never sets the error. */
  lemma {:induction false} ErrorFree(events: seq<Event>)
    ensures Run(INITIAL, events).result.error == ""
  {
    hide CloseText, CloseThinking;
    if events != [] {
      var s, e := Run(INITIAL, events[..|events| - 1]), events[|events| - 1];
      ErrorFree(events[..|events| - 1]);
      ClosingKeepsInflight(s);
      ClosingKeepsInflight(CloseText(s));
      ClosingKeepsInflight(CloseThinking(s));
    }
  }
}
