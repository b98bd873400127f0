/** Laws of reassembly that hold for every event stream. */
module ReassemblyLaws {
  import opened Octets
  import opened Protocol
  import opened Reassembler

  // ------------------------------------------------ a stream read without a machine

  /** Every text delta, whatever its index. */
  function TextOf(es: seq<Event>): string {
    if es == [] then "" else
      var e := es[|es| - 1];
      TextOf(es[..|es| - 1]) + if e.BlockDelta? && e.delta.TextDelta? then e.delta.text else ""
  }

  /** Is a tool_use block at `i` started and not stopped? */
  predicate ToolInFlight(es: seq<Event>, i: int) {
    es != [] &&
    var before, e := es[..|es| - 1], es[|es| - 1];
    if e.BlockStart? && e.index == i && e.block.ToolUseBlock? then true
    else if e.BlockStop? && e.index == i then false
    else ToolInFlight(before, i)
  }

  /** Likewise for tool_result blocks; a stop goes to a tool at the same index first. */
  predicate ResultInFlight(es: seq<Event>, i: int) {
    es != [] &&
    var before, e := es[..|es| - 1], es[|es| - 1];
    if e.BlockStart? && e.index == i && e.block.ToolResultBlock? then true
    else if e.BlockStop? && e.index == i && !ToolInFlight(before, i) then false
    else ResultInFlight(before, i)
  }

  /** The thinking block that is open, by index. */
  function OpenThinking(es: seq<Event>): Option<int> {
    if es == [] then None else
      var before, e := es[..|es| - 1], es[|es| - 1];
      if e.BlockStart? && e.block.ThinkingBlock? then Some(e.index)
      else if e.BlockStart? && !e.block.UnknownBlock? then None
      else if e.BlockStop? && OpenThinking(before) == Some(e.index)
              && !ToolInFlight(before, e.index) && !ResultInFlight(before, e.index) then None
      else OpenThinking(before)
  }

  /** The thinking deltas that name the open thinking block. */
  function ThinkingOf(es: seq<Event>): string {
    if es == [] then "" else
      var before, e := es[..|es| - 1], es[|es| - 1];
      ThinkingOf(before)
      + if e.BlockDelta? && e.delta.ThinkingDelta? && OpenThinking(before) == Some(e.index) then e.delta.text else ""
  }

  /** How the reassembler writes down which thinking block is open. */
  function Sentinel(open: Option<int>): int {
    if open.Some? then open.value else NONE
  }

  /** The thinking deltas that name the index the reassembler has written down. */
  function ThinkingTaken(es: seq<Event>): string {
    if es == [] then "" else
      var before, e := es[..|es| - 1], es[|es| - 1];
      ThinkingTaken(before)
      + if e.BlockDelta? && e.delta.ThinkingDelta? && e.index == Sentinel(OpenThinking(before)) then e.delta.text else ""
  }

  /** What a tool_use start announces. */
  datatype Tag = Tag(id: string, name: string)

  function Starts(es: seq<Event>): seq<Tag> {
    if es == [] then [] else
      var e := es[|es| - 1];
      Starts(es[..|es| - 1])
      + if e.BlockStart? && e.block.ToolUseBlock? then [Tag(e.block.id, e.block.name)] else []
  }

  function Names(tags: seq<Tag>): seq<string> {
    if tags == [] then [] else Names(tags[..|tags| - 1]) + [tags[|tags| - 1].name]
  }

  // ------------------------------------------------------------ timeline projections

  function TextItems(t: seq<Item>): seq<string> {
    if t == [] then [] else
      var x := t[|t| - 1];
      TextItems(t[..|t| - 1]) + if x.TextItem? then [x.text] else []
  }

  function ThinkingItems(t: seq<Item>): seq<string> {
    if t == [] then [] else
      var x := t[|t| - 1];
      ThinkingItems(t[..|t| - 1]) + if x.ThinkingItem? then [x.text] else []
  }

  function ToolItems(t: seq<Item>): seq<Execution> {
    if t == [] then [] else
      var x := t[|t| - 1];
      ToolItems(t[..|t| - 1]) + if x.ToolItem? then [x.execution] else []
  }

  lemma ItemsSnoc(t: seq<Item>, x: Item)
    ensures TextItems(t + [x]) == TextItems(t) + if x.TextItem? then [x.text] else []
    ensures ThinkingItems(t + [x]) == ThinkingItems(t) + if x.ThinkingItem? then [x.text] else []
    ensures ToolItems(t + [x]) == ToolItems(t) + if x.ToolItem? then [x.execution] else []
  {
  }

  // ----------------------------------------------------------------------- routing

  /** The maps and indices of the machine say what the stream says, index by index. */
  ghost predicate Routes(s: State, es: seq<Event>) {
    && (forall i :: i in s.tools <==> ToolInFlight(es, i))
    && (forall i :: i in s.results <==> ResultInFlight(es, i))
    && s.thinkingIndex == Sentinel(OpenThinking(es))
    && (s.textIndex == NONE || s.thinkingIndex == NONE)
  }

  /** The same questions asked one event later. */
  lemma RouteEvent(es: seq<Event>, e: Event)
    ensures forall i :: ToolInFlight(es + [e], i) <==>
                          if e.BlockStart? && e.index == i && e.block.ToolUseBlock? then true
                          else if e.BlockStop? && e.index == i then false
                          else ToolInFlight(es, i)
    ensures forall i :: ResultInFlight(es + [e], i) <==>
                          if e.BlockStart? && e.index == i && e.block.ToolResultBlock? then true
                          else if e.BlockStop? && e.index == i && !ToolInFlight(es, i) then false
                          else ResultInFlight(es, i)
    ensures OpenThinking(es + [e]) ==
              if e.BlockStart? && e.block.ThinkingBlock? then Some(e.index)
              else if e.BlockStart? && !e.block.UnknownBlock? then None
              else if e.BlockStop? && OpenThinking(es) == Some(e.index)
                      && !ToolInFlight(es, e.index) && !ResultInFlight(es, e.index) then None
              else OpenThinking(es)
  {
    var u := es + [e];
    assert u[..|u| - 1] == es && u[|u| - 1] == e;
  }

  lemma {:induction false} HandleRoutes(s: State, es: seq<Event>, e: Event)
    requires Routes(s, es)
    ensures Routes(Handle(s, e), es + [e])
  {
    hide CloseText, CloseThinking, AddTool, AddResult, ToolInFlight, ResultInFlight, OpenThinking, OnStart, OnStop;
    RouteEvent(es, e);
    match e
    case BlockStart(i, block) => StartRoutes(s, i, block);
    case BlockStop(i) => StopRoutes(s, i);
    case _ =>
  }

  /** What a start does to the maps and indices. */
  lemma StartRoutes(s: State, i: int, block: Block)
    ensures
      var t := OnStart(s, i, block);
      && t.tools.Keys == s.tools.Keys + (if block.ToolUseBlock? then {i} else {})
      && t.results.Keys == s.results.Keys + (if block.ToolResultBlock? then {i} else {})
      && t.thinkingIndex == (if block.UnknownBlock? then s.thinkingIndex else if block.ThinkingBlock? then i else NONE)
      && t.textIndex == (if block.UnknownBlock? then s.textIndex else if block.TextBlock? then i else NONE)
  {
    hide CloseText, CloseThinking;
    ClosingKeepsInflight(s);
    ClosingKeepsInflight(CloseText(s));
    ClosingKeepsInflight(CloseThinking(s));
  }

  /** What a stop does to the maps and indices. */
  lemma StopRoutes(s: State, i: int)
    ensures
      var t := OnStop(s, i);
      var toTool, toResult := i in s.tools, i !in s.tools && i in s.results;
      && t.tools.Keys == s.tools.Keys - {i}
      && t.results.Keys == s.results.Keys - (if toResult then {i} else {})
      && t.thinkingIndex == (if !toTool && !toResult && i != s.textIndex && i == s.thinkingIndex then NONE
                             else s.thinkingIndex)
      && t.textIndex == (if !toTool && !toResult && i == s.textIndex then NONE else s.textIndex)
  {
    hide CloseText, CloseThinking, AddTool, AddResult;
    ClosingKeepsInflight(s);
  }

  lemma {:induction false} RunRoutes(es: seq<Event>)
    ensures Routes(Run(INITIAL, es), es)
  {
    if es != [] {
      var before, e := es[..|es| - 1], es[|es| - 1];
      RunRoutes(before);
      HandleRoutes(Run(INITIAL, before), before, e);
      assert before + [e] == es;
    }
  }

  // ------------------------------------------------------------------- conservation

  ghost predicate Segments(s: State) {
    && TextItems(s.result.timeline) == s.allText && "" !in s.allText
    && ThinkingItems(s.result.timeline) == s.allThinking && "" !in s.allThinking
    && ToolItems(s.result.timeline) == s.result.executions
  }

  function TextSoFar(s: State): string {
    Concat(s.allText) + Concat(s.curText)
  }

  function ThinkingSoFar(s: State): string {
    Concat(s.allThinking) + Concat(s.curThinking)
  }

  ghost predicate Conserves(s: State, es: seq<Event>) {
    && Segments(s)
    && TextSoFar(s) == TextOf(es)
    && ThinkingSoFar(s) == ThinkingTaken(es)
    && s.result.toolNames == Names(Starts(es))
  }

  lemma CloseTextConserves(s: State)
    requires Segments(s)
    ensures Segments(CloseText(s)) && TextSoFar(CloseText(s)) == TextSoFar(s)
    ensures ThinkingSoFar(CloseText(s)) == ThinkingSoFar(s)
    ensures CloseText(s).curText == []
  {
    hide Concat, TextItems, ThinkingItems, ToolItems;
    var text := Concat(s.curText);
    EmptyConcat();
    ConcatSnoc(s.allText, text);
    ItemsSnoc(s.result.timeline, TextItem(text));
  }

  lemma CloseThinkingConserves(s: State)
    requires Segments(s)
    ensures Segments(CloseThinking(s)) && ThinkingSoFar(CloseThinking(s)) == ThinkingSoFar(s)
    ensures TextSoFar(CloseThinking(s)) == TextSoFar(s)
    ensures CloseThinking(s).curThinking == []
  {
    hide Concat, TextItems, ThinkingItems, ToolItems;
    var text := Concat(s.curThinking);
    EmptyConcat();
    ConcatSnoc(s.allThinking, text);
    ItemsSnoc(s.result.timeline, ThinkingItem(text));
  }

  lemma EmptyConcat()
    ensures Concat<char>([]) == []
  {
  }

  lemma ReadEvent(es: seq<Event>, e: Event)
    ensures TextOf(es + [e]) ==
              if e.BlockDelta? && e.delta.TextDelta? then TextOf(es) + e.delta.text else TextOf(es)
    ensures ThinkingOf(es + [e]) ==
              if e.BlockDelta? && e.delta.ThinkingDelta? && OpenThinking(es) == Some(e.index)
              then ThinkingOf(es) + e.delta.text else ThinkingOf(es)
    ensures ThinkingTaken(es + [e]) ==
              if e.BlockDelta? && e.delta.ThinkingDelta? && e.index == Sentinel(OpenThinking(es))
              then ThinkingTaken(es) + e.delta.text else ThinkingTaken(es)
    ensures Starts(es + [e]) ==
              if e.BlockStart? && e.block.ToolUseBlock?
              then Starts(es) + [Tag(e.block.id, e.block.name)] else Starts(es)
  {
  }

  lemma NamesSnoc(tags: seq<Tag>, t: Tag)
    ensures Names(tags + [t]) == Names(tags) + [t.name]
  {
  }

  lemma AddResultSegments(s: State, res: InflightResult)
    requires Segments(s)
    ensures Segments(s.(result := AddResult(s.result, res)))
  {
    hide TextItems, ThinkingItems, ToolItems, Concat;
    var k := FirstMatch(s.result.tools, res.toolUseID);
    if k.Some? {
      ItemsSnoc(s.result.timeline, ToolItem(Executed(s.result.tools[k.value], res)));
    }
  }

  lemma HandleConserves(s: State, es: seq<Event>, e: Event)
    requires Routes(s, es) && Conserves(s, es)
    ensures Conserves(Handle(s, e), es + [e])
  {
    hide CloseText, CloseThinking, TextOf, ThinkingOf, ThinkingTaken, Starts, Names, OpenThinking, Concat,
         TextItems, ThinkingItems, ToolItems;
    ReadEvent(es, e);
    ClosingKeepsInflight(s);
    CloseTextConserves(s);
    CloseThinkingConserves(s);
    match e
    case BlockStart(_, block) =>
      ClosingKeepsInflight(CloseText(s));
      ClosingKeepsInflight(CloseThinking(s));
      CloseThinkingConserves(CloseText(s));
      CloseTextConserves(CloseThinking(s));
      if block.ToolUseBlock? {
        NamesSnoc(Starts(es), Tag(block.id, block.name));
      }
    case BlockDelta(_, delta) =>
      if delta.TextDelta? {
        ConcatSnoc(s.curText, delta.text);
        Assoc(Concat(s.allText), Concat(s.curText), delta.text);
      } else if delta.ThinkingDelta? {
        ConcatSnoc(s.curThinking, delta.text);
        Assoc(Concat(s.allThinking), Concat(s.curThinking), delta.text);
      }
    case BlockStop(i) =>
      if i in s.results {
        AddResultSegments(s, s.results[i]);
      }
    case _ =>
  }

  lemma {:induction false} RunConserves(es: seq<Event>)
    ensures Conserves(Run(INITIAL, es), es)
  {
    hide Handle;
    if es == [] {
      EmptyConcat();
    } else {
      var before, e := es[..|es| - 1], es[|es| - 1];
      RunConserves(before);
      RunRoutes(before);
      HandleConserves(Run(INITIAL, before), before, e);
      assert before + [e] == es;
    }
  }

  // ---------------------------------------------------------------- the two flushes

  function Calls(tools: map<int, InflightTool>): map<int, ToolCall> {
    map i | i in tools :: FinishedCall(tools[i])
  }

  function Matched(tools: seq<ToolCall>, res: InflightResult): Option<Execution> {
    var k := FirstMatch(tools, res.toolUseID);
    if k.None? then None else Some(Executed(tools[k.value], res))
  }

  function AllMatched(tools: seq<ToolCall>, results: map<int, InflightResult>): map<int, Option<Execution>> {
    map i | i in results :: Matched(tools, results[i])
  }

  function Values<T>(m: map<int, T>, order: seq<int>): seq<T>
    requires forall k :: 0 <= k < |order| ==> order[k] in m
  {
    if order == [] then [] else Values(m, order[..|order| - 1]) + [m[order[|order| - 1]]]
  }

  function Somes<T>(s: seq<Option<T>>): seq<T> {
    if s == [] then [] else
      var x := s[|s| - 1];
      Somes(s[..|s| - 1]) + if x.Some? then [x.value] else []
  }

  lemma SomesSnoc<T>(s: seq<Option<T>>, x: Option<T>)
    ensures Somes(s + [x]) == Somes(s) + if x.Some? then [x.value] else []
  {
  }

  /** Executions as the timeline shows them. */
  function Shown(executions: seq<Execution>): seq<Item> {
    if executions == [] then []
    else Shown(executions[..|executions| - 1]) + [ToolItem(executions[|executions| - 1])]
  }

  lemma ShownSnoc(executions: seq<Execution>, x: Execution)
    ensures Shown(executions + [x]) == Shown(executions) + [ToolItem(x)]
  {
  }

  lemma {:induction false} FlushToolsAdds(r: Parsed, tools: map<int, InflightTool>, order: seq<int>)
    requires forall k :: 0 <= k < |order| ==> order[k] in tools
    ensures FlushTools(r, tools, order) == r.(tools := r.tools + Values(Calls(tools), order))
  {
    hide FinishedCall;
    if order == [] {
      assert r.tools + [] == r.tools;
    } else {
      var init, i := order[..|order| - 1], order[|order| - 1];
      FlushToolsAdds(r, tools, init);
      Assoc(r.tools, Values(Calls(tools), init), [FinishedCall(tools[i])]);
    }
  }

  lemma {:induction false} FlushResultsAdds(r: Parsed, results: map<int, InflightResult>, order: seq<int>)
    requires forall k :: 0 <= k < |order| ==> order[k] in results
    ensures
      var f := FlushResults(r, results, order);
      && f == r.(executions := f.executions, timeline := f.timeline)
      && f.executions == r.executions + Somes(Values(AllMatched(r.tools, results), order))
      && f.timeline == r.timeline + Shown(Somes(Values(AllMatched(r.tools, results), order)))
  {
    hide FirstMatch;
    if order == [] {
      assert r.executions + [] == r.executions && r.timeline + [] == r.timeline;
    } else {
      hide Shown;
      var init, i := order[..|order| - 1], order[|order| - 1];
      var m := AllMatched(r.tools, results);
      FlushResultsAdds(r, results, init);
      SomesSnoc(Values(m, init), m[i]);
      var before := Somes(Values(m, init));
      if m[i].Some? {
        ShownSnoc(before, m[i].value);
        Assoc(r.executions, before, [m[i].value]);
        Assoc(r.timeline, Shown(before), [ToolItem(m[i].value)]);
      } else {
        assert before + [] == before;
      }
    }
  }

  lemma {:induction false} FlushResultsSegments(s: State, results: map<int, InflightResult>, order: seq<int>)
    requires Segments(s) && forall k :: 0 <= k < |order| ==> order[k] in results
    ensures Segments(s.(result := FlushResults(s.result, results, order)))
  {
    hide Segments, AddResult;
    if order == [] {
      assert s.(result := FlushResults(s.result, results, order)) == s;
    } else {
      var init, i := order[..|order| - 1], order[|order| - 1];
      FlushResultsSegments(s, results, init);
      AddResultSegments(s.(result := FlushResults(s.result, results, init)), results[i]);
    }
  }

  /** The parts of a result that reassembly conserves. */
  lemma FinalizedConserves(s: State, es: seq<Event>, toolOrder: seq<int>, resultOrder: seq<int>)
    requires Conserves(s, es) && IsFlush(s, toolOrder, resultOrder)
    ensures
      var r := Finalized(s, toolOrder, resultOrder);
      && r.text == TextOf(es) == Concat(TextItems(r.timeline))
      && r.thinking == ThinkingTaken(es) == Concat(ThinkingItems(r.timeline))
      && r.executions == ToolItems(r.timeline)
      && r.toolNames == Names(Starts(es))
      && "" !in TextItems(r.timeline) && "" !in ThinkingItems(r.timeline)
  {
    hide CloseText, CloseThinking, TextOf, ThinkingOf, ThinkingTaken, Starts, Names, Concat, TextItems,
         ThinkingItems, ToolItems, FlushTools, FlushResults;
    var t := CloseThinking(CloseText(s));
    ClosingKeepsInflight(s);
    ClosingKeepsInflight(CloseText(s));
    CloseTextConserves(s);
    CloseThinkingConserves(CloseText(s));
    EmptyConcat();
    FlushToolsAdds(t.result, s.tools, toolOrder);
    var u := t.(result := FlushTools(t.result, s.tools, toolOrder));
    FlushResultsSegments(u, s.results, resultOrder);
    FlushResultsAdds(u.result, s.results, resultOrder);
  }

  /**
   * Conservation, for every stream of events. Text is every text delta handled before
   * `message_stop` or the end of input; thinking is every thinking delta at the index
   * written down for the open block (`ThinkingIsOwnIff` says when that is every delta of
   * an open block); and the timeline holds text, thinking and executions exactly, with
   * no empty segment.
   */
  lemma {:induction false} Conservation(events: seq<Event>, failure: string, r: Parsed)
    requires Reassembles(events, failure, r)
    ensures r.text == TextOf(Handled(events)) == Concat(TextItems(r.timeline))
    ensures r.thinking == ThinkingTaken(Handled(events)) == Concat(ThinkingItems(r.timeline))
    ensures r.executions == ToolItems(r.timeline)
    ensures r.toolNames == Names(Starts(Handled(events)))
    ensures "" !in TextItems(r.timeline) && "" !in ThinkingItems(r.timeline)
  {
    hide Finalized, Run, Handled;
    var s := EndState(events, failure);
    var to, ro :| IsFlush(s, to, ro) && r == Finalized(s, to, ro);
    RunConserves(Handled(events));
    FinalizedConserves(s, Handled(events), to, ro);
  }

  /** The stream id announced last. */
  function StreamIDOf(es: seq<Event>): string {
    if es == [] then "" else
      var e := es[|es| - 1];
      if e.MessageStart? then e.streamID else StreamIDOf(es[..|es| - 1])
  }

  lemma {:induction false} RunStreamID(es: seq<Event>)
    ensures Run(INITIAL, es).result.streamID == StreamIDOf(es)
  {
    hide CloseText, CloseThinking;
    if es != [] {
      var s := Run(INITIAL, es[..|es| - 1]);
      RunStreamID(es[..|es| - 1]);
      ClosingKeepsInflight(s);
      ClosingKeepsInflight(CloseText(s));
      ClosingKeepsInflight(CloseThinking(s));
    }
  }

  /**
   * The stream id is the last one announced. A reader's error is kept if and only if no
   * `message_stop` came before it.
   */
  lemma {:induction false} HeaderIsKept(events: seq<Event>, failure: string, r: Parsed)
    requires Reassembles(events, failure, r)
    ensures r.streamID == StreamIDOf(Handled(events))
    ensures r.error == if MessageStop in events then "" else failure
  {
    hide Run, CloseText, CloseThinking, FlushTools, FlushResults, Values, Somes, StreamIDOf;
    var s := EndState(events, failure);
    var to, ro :| IsFlush(s, to, ro) && r == Finalized(s, to, ro);
    RunStreamID(Handled(events));
    ErrorFree(Handled(events));
    ClosingKeepsInflight(s);
    ClosingKeepsInflight(CloseText(s));
    var c := CloseThinking(CloseText(s)).result;
    FlushToolsAdds(c, s.tools, to);
    FlushResultsAdds(FlushTools(c, s.tools, to), s.results, ro);
    HandledIsAllIff(events);
  }

  lemma HandledIsAllIff(events: seq<Event>)
    ensures Handled(events) == events <==> MessageStop !in events
  {
  }

  /** Text in a thinking delta at the sentinel index while no thinking block is open. */
  predicate Stray(before: seq<Event>, e: Event) {
    && e.BlockDelta? && e.delta.ThinkingDelta? && e.delta.text != ""
    && e.index == -1 && OpenThinking(before) == None
  }

  predicate NoStray(es: seq<Event>) {
    forall k :: 0 <= k < |es| ==> !Stray(es[..k], es[k])
  }

  lemma NoStraySnoc(es: seq<Event>, e: Event)
    ensures NoStray(es + [e]) <==> NoStray(es) && !Stray(es, e)
  {
    hide Stray;
    var u := es + [e];
    assert u[..|es|] == es && u[|es|] == e;
    assert forall k :: 0 <= k < |es| ==> u[k] == es[k] && u[..k] == es[..k];
  }

  /** What an event adds to the thinking of the open block, and to the thinking taken. */
  lemma ThinkingStep(es: seq<Event>, e: Event) returns (own: string, taken: string)
    ensures ThinkingOf(es + [e]) == ThinkingOf(es) + own
    ensures ThinkingTaken(es + [e]) == ThinkingTaken(es) + taken
    ensures if Stray(es, e) then own == "" && taken != "" else own == taken
  {
    hide OpenThinking, ThinkingOf, ThinkingTaken;
    ReadEvent(es, e);
    own, taken := "", "";
    if e.BlockDelta? && e.delta.ThinkingDelta? {
      own := if OpenThinking(es) == Some(e.index) then e.delta.text else "";
      taken := if e.index == Sentinel(OpenThinking(es)) then e.delta.text else "";
    }
  }

  lemma {:induction false} TakenIsOwnIff(es: seq<Event>)
    ensures |ThinkingOf(es)| <= |ThinkingTaken(es)|
    ensures NoStray(es) <==> |ThinkingOf(es)| == |ThinkingTaken(es)|
    ensures NoStray(es) ==> ThinkingOf(es) == ThinkingTaken(es)
  {
    if es != [] {
      hide ThinkingOf, ThinkingTaken, NoStray, Stray;
      var before, e := es[..|es| - 1], es[|es| - 1];
      TakenIsOwnIff(before);
      var own, taken := ThinkingStep(before, e);
      NoStraySnoc(before, e);
      assert before + [e] == es;
    }
  }

  /**
   * The reassembler writes -1 down when no thinking block is open. So the rebuilt thinking
   * is the deltas that name an open thinking block if and only if no text arrives in a
   * thinking delta at index -1 while none is open.
   */
  lemma {:induction false} ThinkingIsOwnIff(events: seq<Event>, failure: string, r: Parsed)
    requires Reassembles(events, failure, r)
    ensures r.thinking == ThinkingOf(Handled(events)) <==> NoStray(Handled(events))
  {
    hide Reassembles, NoStray, ThinkingOf, ThinkingTaken;
    Conservation(events, failure, r);
    TakenIsOwnIff(Handled(events));
  }

  // -------------------------------------------------------------------- truncation

  predicate ReadsWithin(p: seq<Event>, es: seq<Event>) {
    TextOf(p) <= TextOf(es) && ThinkingTaken(p) <= ThinkingTaken(es) && Names(Starts(p)) <= Names(Starts(es))
  }

  lemma ReadsThen(p: seq<Event>, q: seq<Event>, es: seq<Event>)
    requires ReadsWithin(p, q) && ReadsWithin(q, es)
    ensures ReadsWithin(p, es)
  {
    hide TextOf, ThinkingTaken, Starts, Names;
  }

  lemma ReadsGrowByOne(es: seq<Event>, e: Event)
    ensures ReadsWithin(es, es + [e])
  {
    hide OpenThinking, TextOf, ThinkingOf, ThinkingTaken, Starts, Names;
    ReadEvent(es, e);
    if e.BlockStart? && e.block.ToolUseBlock? {
      NamesSnoc(Starts(es), Tag(e.block.id, e.block.name));
    }
  }

  lemma {:induction false} ReadsGrow(p: seq<Event>, es: seq<Event>)
    requires p <= es
    ensures ReadsWithin(p, es)
    decreases |es|
  {
    if p == es {
      hide TextOf, ThinkingTaken, Starts, Names;
    } else {
      hide ReadsWithin;
      var init, e := es[..|es| - 1], es[|es| - 1];
      assert p <= init;
      ReadsGrow(p, init);
      ReadsGrowByOne(init, e);
      assert init + [e] == es;
      ReadsThen(p, init, es);
    }
  }

  lemma {:induction false} HandledGrows(p: seq<Event>, es: seq<Event>)
    requires p <= es
    ensures Handled(p) <= Handled(es)
  {
  }

  /** Cutting a stream anywhere only ever shortens the text, the thinking and the tool names. */
  lemma TruncationGivesPrefix(cut: seq<Event>, full: seq<Event>, f: string, g: string, r: Parsed, s: Parsed)
    requires cut <= full && Reassembles(cut, f, r) && Reassembles(full, g, s)
    ensures r.text <= s.text && r.thinking <= s.thinking && r.toolNames <= s.toolNames
  {
    hide Reassembles, TextOf, ThinkingTaken, Names, Starts;
    Conservation(cut, f, r);
    Conservation(full, g, s);
    HandledGrows(cut, full);
    ReadsGrow(Handled(cut), Handled(full));
  }

  // --------------------------------------------------------------------- soundness

  /** An execution shows the name and parameters of the first finished call with its id. */
  predicate Backed(tools: seq<ToolCall>, e: Execution) {
    var k := FirstMatch(tools, e.toolUseID);
    k.Some? && tools[k.value].name == e.name && tools[k.value].params == e.params
  }

  predicate Sound(r: Parsed) {
    forall k :: 0 <= k < |r.executions| ==> Backed(r.tools, r.executions[k])
  }

  lemma FirstMatchStays(tools: seq<ToolCall>, more: seq<ToolCall>, id: string)
    requires FirstMatch(tools, id).Some?
    ensures FirstMatch(tools + more, id) == FirstMatch(tools, id)
  {
    var j, k := FirstMatch(tools, id).value, FirstMatch(tools + more, id);
    assert (tools + more)[j] == tools[j];
    assert k.Some? && k.value <= j;
    assert (tools + more)[k.value] == tools[k.value];
  }

  lemma SoundAsToolsGrow(r: Parsed, more: seq<ToolCall>)
    requires Sound(r)
    ensures Sound(r.(tools := r.tools + more))
  {
    forall k | 0 <= k < |r.executions|
      ensures Backed(r.tools + more, r.executions[k])
    {
      assert Backed(r.tools, r.executions[k]);
      FirstMatchStays(r.tools, more, r.executions[k].toolUseID);
    }
  }

  /** A result with no finished call of its id leaves no trace; any other adds its execution. */
  lemma ResultWithoutCallIsDropped(r: Parsed, res: InflightResult)
    ensures AddResult(r, res) == r <==> forall k :: 0 <= k < |r.tools| ==> r.tools[k].toolUseID != res.toolUseID
    ensures Sound(r) ==> Sound(AddResult(r, res))
  {
  }

  lemma {:induction false} HandleSound(s: State, e: Event)
    requires Sound(s.result)
    ensures Sound(Handle(s, e).result)
  {
    hide Sound, CloseText, CloseThinking, AddResult;
    ClosingKeepsInflight(s);
    SameBacking(s.result, Handle(s, e).result);
    match e
    case BlockStart(_, _) =>
      ClosingKeepsInflight(CloseText(s));
      ClosingKeepsInflight(CloseThinking(s));
    case BlockStop(i) =>
      if i in s.tools {
        SoundAsToolsGrow(s.result, [FinishedCall(s.tools[i])]);
      } else if i in s.results {
        ResultWithoutCallIsDropped(s.result, s.results[i]);
      }
    case _ =>
  }

  lemma {:induction false} RunSound(es: seq<Event>)
    ensures Sound(Run(INITIAL, es).result)
  {
    if es != [] {
      RunSound(es[..|es| - 1]);
      HandleSound(Run(INITIAL, es[..|es| - 1]), es[|es| - 1]);
    }
  }

  lemma SameBacking(r: Parsed, q: Parsed)
    ensures Sound(r) && r.tools == q.tools && r.executions == q.executions ==> Sound(q)
  {
  }

  lemma {:induction false} FlushResultsSound(r: Parsed, results: map<int, InflightResult>, order: seq<int>)
    requires Sound(r) && forall k :: 0 <= k < |order| ==> order[k] in results
    ensures Sound(FlushResults(r, results, order))
  {
    if order != [] {
      FlushResultsSound(r, results, order[..|order| - 1]);
      ResultWithoutCallIsDropped(FlushResults(r, results, order[..|order| - 1]), results[order[|order| - 1]]);
    }
  }

  /**
   * Whatever arrives, every execution shows the name and parameters of the first finished
   * call with its id. Its result may be short: a result block in flight when the stream
   * ends is finished with the parts that had arrived, even none.
   */
  lemma ExecutionsAreSound(events: seq<Event>, failure: string, r: Parsed)
    requires Reassembles(events, failure, r)
    ensures Sound(r)
  {
    hide Run, Handled, CloseText, CloseThinking, FlushTools, FlushResults, Sound;
    var s := EndState(events, failure);
    var to, ro :| IsFlush(s, to, ro) && r == Finalized(s, to, ro);
    RunSound(Handled(events));
    var t := CloseThinking(CloseText(s));
    ClosingKeepsInflight(s);
    ClosingKeepsInflight(CloseText(s));
    SameBacking(Run(INITIAL, Handled(events)).result, t.result);
    FlushToolsAdds(t.result, s.tools, to);
    SoundAsToolsGrow(t.result, Values(Calls(s.tools), to));
    FlushResultsSound(FlushTools(t.result, s.tools, to), s.results, ro);
    SameBacking(FlushResults(FlushTools(t.result, s.tools, to), s.results, ro), r);
  }
}
