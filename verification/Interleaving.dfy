/**
 * Parallel tools: the events of many tool_use and tool_result blocks, interleaved in any
 * way, rebuild to the same calls and executions.
 */
module Interleaving {
  import opened Octets
  import opened Protocol
  import opened Reassembler
  import opened ReassemblyLaws
  import opened FlushOrder

  /** One block's own sequence of events, without its index. */
  datatype Lane =
    | ToolLane(id: string, name: string, parts: seq<string>)
    | ResultLane(toolUseID: string, isError: bool, parts: seq<string>)

  type Lanes = map<int, Lane>

  function Length(lane: Lane): nat {
    |lane.parts| + 2
  }

  /** Start, each part in order, stop. */
  function LaneEvent(i: int, lane: Lane, k: nat): Event
    requires k < Length(lane)
  {
    if k == 0 then
      BlockStart(i, if lane.ToolLane? then ToolUseBlock(lane.id, lane.name)
                    else ToolResultBlock(lane.toolUseID, lane.isError))
    else if k <= |lane.parts| then
      BlockDelta(i, if lane.ToolLane? then InputDelta(lane.parts[k - 1]) else ResultDelta(lane.parts[k - 1]))
    else BlockStop(i)
  }

  function LaneEvents(i: int, lane: Lane): (es: seq<Event>)
    ensures |es| == Length(lane) && forall k :: 0 <= k < |es| ==> es[k] == LaneEvent(i, lane, k)
  {
    seq(Length(lane), k requires 0 <= k < Length(lane) => LaneEvent(i, lane, k))
  }

  predicate HasIndex(e: Event, i: int) {
    (e.BlockStart? || e.BlockDelta? || e.BlockStop?) && e.index == i
  }

  predicate InSomeLane(e: Event, lanes: Lanes) {
    (e.BlockStart? || e.BlockDelta? || e.BlockStop?) && e.index in lanes
  }

  /** The events of one block, in order. */
  function Project(es: seq<Event>, i: int): seq<Event> {
    if es == [] then [] else
      var e := es[|es| - 1];
      Project(es[..|es| - 1], i) + if HasIndex(e, i) then [e] else []
  }

  /** Some interleaving of the lanes: nothing else, and each lane's own order kept. */
  ghost predicate Interleaves(es: seq<Event>, lanes: Lanes) {
    && (forall k :: 0 <= k < |es| ==> InSomeLane(es[k], lanes))
    && (forall i :: i in lanes ==> Project(es, i) == LaneEvents(i, lanes[i]))
  }

  /** How far lane `i` has come. */
  function Pos(p: seq<Event>, i: int): nat {
    |Project(p, i)|
  }

  /** The indices of the stops, in order. */
  function StopOrder(es: seq<Event>): seq<int> {
    if es == [] then [] else
      var e := es[|es| - 1];
      StopOrder(es[..|es| - 1]) + if e.BlockStop? then [e.index] else []
  }

  // ------------------------------------------------------------------- projections

  lemma ReadOn(p: seq<Event>, e: Event, i: int)
    ensures Project(p + [e], i) == if HasIndex(e, i) then Project(p, i) + [e] else Project(p, i)
    ensures StopOrder(p + [e]) == if e.BlockStop? then StopOrder(p) + [e.index] else StopOrder(p)
  {
  }

  lemma {:induction false} ProjectGrows(p: seq<Event>, es: seq<Event>, i: int)
    requires p <= es
    ensures Project(p, i) <= Project(es, i)
    decreases |es|
  {
    if p != es {
      ProjectGrows(p, es[..|es| - 1], i);
    }
  }

  /** The next event of an interleaving is the next event of its own lane. */
  lemma {:induction false} NextInLane(es: seq<Event>, lanes: Lanes, k: nat) returns (i: int)
    requires Interleaves(es, lanes) && k < |es|
    ensures i in lanes && HasIndex(es[k], i)
    ensures Pos(es[..k], i) < Length(lanes[i]) && es[k] == LaneEvent(i, lanes[i], Pos(es[..k], i))
    ensures Pos(es[..k + 1], i) == Pos(es[..k], i) + 1
    ensures forall j :: j != i ==> Pos(es[..k + 1], j) == Pos(es[..k], j)
    ensures StopOrder(es[..k + 1]) ==
              if es[k].BlockStop? then StopOrder(es[..k]) + [i] else StopOrder(es[..k])
  {
    hide Project, StopOrder, LaneEvents;
    assert InSomeLane(es[k], lanes);
    i := es[k].index;
    var p, e := es[..k], es[k];
    assert es[..k + 1] == p + [e];
    forall j ensures Pos(p + [e], j) == if j == i then Pos(p, j) + 1 else Pos(p, j) {
      ReadOn(p, e, j);
    }
    ReadOn(p, e, i);
    ProjectGrows(p + [e], es, i);
    var whole, q := Project(es, i), Project(p, i);
    assert (q + [e])[|q|] == whole[|q|];
    assert whole == LaneEvents(i, lanes[i]);
  }

  // --------------------------------------------------------------- what lanes come to

  /** The call of a tool lane: all its parts joined, the empty object when they say nothing. */
  function LaneCall(lane: Lane): Option<ToolCall> {
    if lane.ResultLane? then None else
      var input := Concat(lane.parts);
      Some(ToolCall(lane.name, if input == "" then "{}" else input, lane.id))
  }

  function LaneCalls(lanes: Lanes): map<int, Option<ToolCall>> {
    map i | i in lanes :: LaneCall(lanes[i])
  }

  predicate IsCallee(lanes: Lanes, id: string, t: int) {
    t in lanes && lanes[t].ToolLane? && lanes[t].id == id
  }

  /** The call a result answers: the tool lane with its id. */
  ghost function Answered(lanes: Lanes, lane: Lane): Option<Execution> {
    if lane.ToolLane? || !exists t :: IsCallee(lanes, lane.toolUseID, t) then None
    else
      var t :| IsCallee(lanes, lane.toolUseID, t);
      var call := LaneCall(lanes[t]).value;
      Some(Execution(call.name, call.params, Concat(lane.parts), lane.toolUseID))
  }

  ghost function Answers(lanes: Lanes): map<int, Option<Execution>> {
    map i | i in lanes :: Answered(lanes, lanes[i])
  }

  /** Tool ids are distinct, and new to the turn so far. */
  ghost predicate FreshIds(lanes: Lanes, before: seq<ToolCall>) {
    && (forall a, b, id :: IsCallee(lanes, id, a) && IsCallee(lanes, id, b) ==> a == b)
    && (forall k, t :: 0 <= k < |before| && t in lanes && lanes[t].ToolLane? ==> before[k].toolUseID != lanes[t].id)
  }

  /** A result block stops after the tool block it answers. */
  ghost predicate ResultsAfterCalls(es: seq<Event>, lanes: Lanes) {
    forall k :: 0 <= k < |es| && es[k].BlockStop? && es[k].index in lanes && lanes[es[k].index].ResultLane? ==>
                  CalleeStopped(lanes, StopOrder(es[..k]), lanes[es[k].index].toolUseID)
  }

  ghost predicate CalleeStopped(lanes: Lanes, stopped: seq<int>, id: string) {
    exists t :: IsCallee(lanes, id, t) && t in stopped
  }

  // ----------------------------------------------------------------------- invariant

  predicate Halfway(lanes: Lanes, p: seq<Event>, i: int) {
    i in lanes && 0 < Pos(p, i) < Length(lanes[i])
  }

  /** A lane between its start and its stop is in flight with the parts so far. */
  ghost predicate InflightAgrees(t: State, lanes: Lanes, p: seq<Event>) {
    && (forall i :: i in t.tools <==> Halfway(lanes, p, i) && lanes[i].ToolLane?)
    && (forall i :: i in t.results <==> Halfway(lanes, p, i) && lanes[i].ResultLane?)
    && (forall i :: i in t.tools ==>
          t.tools[i] == InflightTool(lanes[i].name, lanes[i].id, lanes[i].parts[..Pos(p, i) - 1]))
    && (forall i :: i in t.results ==>
          t.results[i] == InflightResult(lanes[i].toolUseID, lanes[i].parts[..Pos(p, i) - 1]))
  }

  ghost predicate StopsAgree(lanes: Lanes, p: seq<Event>) {
    var order := StopOrder(p);
    && (forall k :: 0 <= k < |order| ==> order[k] in lanes && Pos(p, order[k]) == Length(lanes[order[k]]))
    && (forall i :: i in lanes && Pos(p, i) == Length(lanes[i]) ==> i in order)
    && (forall j, k :: 0 <= j < k < |order| ==> order[j] != order[k])
  }

  /** What is finished so far, in the order of the stops. */
  ghost predicate OutputAgrees(s: State, t: State, lanes: Lanes, order: seq<int>)
    requires forall k :: 0 <= k < |order| ==> order[k] in lanes
  {
    && t.result.tools == s.result.tools + Somes(Values(LaneCalls(lanes), order))
    && t.result.executions == s.result.executions + Somes(Values(Answers(lanes), order))
  }

  /** What one event of a lane does to what is in flight. */
  lemma LaneEventInflight(t: State, i: int, lane: Lane, pos: nat)
    requires pos < Length(lane)
    requires 0 < pos && lane.ToolLane? ==> i in t.tools
    requires 0 < pos && lane.ResultLane? ==> i in t.results && i !in t.tools
    ensures
      var u := Handle(t, LaneEvent(i, lane, pos));
      if lane.ToolLane? then
        && u.results == t.results
        && u.tools == if pos == 0 then t.tools[i := InflightTool(lane.name, lane.id, [])]
                      else if pos <= |lane.parts| then
                        t.tools[i := t.tools[i].(params := t.tools[i].params + [lane.parts[pos - 1]])]
                      else t.tools - {i}
      else
        && u.tools == t.tools
        && u.results == if pos == 0 then t.results[i := InflightResult(lane.toolUseID, [])]
                        else if pos <= |lane.parts| then
                          t.results[i := t.results[i].(parts := t.results[i].parts + [lane.parts[pos - 1]])]
                        else t.results - {i}
  {
    hide CloseText, CloseThinking, AddTool, AddResult;
    ClosingKeepsInflight(t);
    ClosingKeepsInflight(CloseText(t));
  }

  lemma InflightStep(t: State, lanes: Lanes, es: seq<Event>, k: nat)
    requires Interleaves(es, lanes) && k < |es| && InflightAgrees(t, lanes, es[..k])
    ensures InflightAgrees(Handle(t, es[k]), lanes, es[..k + 1])
  {
    hide Project, StopOrder, LaneEvents, LaneEvent, Handle, Interleaves;
    var i := NextInLane(es, lanes, k);
    var lane, pos := lanes[i], Pos(es[..k], i);
    LaneEventInflight(t, i, lane, pos);
    if pos == 0 {
      assert lane.parts[..0] == [];
    } else if pos <= |lane.parts| {
      assert lane.parts[..pos] == lane.parts[..pos - 1] + [lane.parts[pos - 1]];
    }
  }

  lemma StopsStep(lanes: Lanes, es: seq<Event>, k: nat)
    requires Interleaves(es, lanes) && k < |es| && StopsAgree(lanes, es[..k])
    ensures StopsAgree(lanes, es[..k + 1])
  {
    hide Project, StopOrder, Interleaves;
    var i := NextInLane(es, lanes, k);
    var before, after := StopOrder(es[..k]), StopOrder(es[..k + 1]);
    assert i !in before;
    assert Pos(es[..k + 1], i) == Length(lanes[i]) <==> es[k].BlockStop?;
  }

  lemma {:induction false} FinishedIn(lanes: Lanes, order: seq<int>, c: ToolCall)
    requires forall k :: 0 <= k < |order| ==> order[k] in lanes
    ensures c in Somes(Values(LaneCalls(lanes), order)) <==> exists i :: i in order && LaneCall(lanes[i]) == Some(c)
  {
    hide LaneCall;
    if order != [] {
      var init, i := order[..|order| - 1], order[|order| - 1];
      FinishedIn(lanes, init, c);
      SomesSnoc(Values(LaneCalls(lanes), init), LaneCall(lanes[i]));
      assert order == init + [i];
      assert forall j :: j in order <==> j in init || j == i;
    }
  }

  /** A result whose call has finished finds exactly that call. */
  lemma {:induction false} ResultFindsItsCall(
      tools: seq<ToolCall>, before: seq<ToolCall>, lanes: Lanes, order: seq<int>, i: int)
    requires forall k :: 0 <= k < |order| ==> order[k] in lanes
    requires FreshIds(lanes, before) && tools == before + Somes(Values(LaneCalls(lanes), order))
    requires i in lanes && lanes[i].ResultLane? && CalleeStopped(lanes, order, lanes[i].toolUseID)
    ensures Matched(tools, InflightResult(lanes[i].toolUseID, lanes[i].parts)) == Answered(lanes, lanes[i])
    ensures Answered(lanes, lanes[i]).Some?
  {
    hide Values, Somes;
    var id := lanes[i].toolUseID;
    var t :| IsCallee(lanes, id, t) && t in order;
    var call := LaneCall(lanes[t]).value;
    var finished := Somes(Values(LaneCalls(lanes), order));
    FinishedIn(lanes, order, call);
    assert call in finished;
    var n :| 0 <= n < |finished| && finished[n] == call;
    assert tools[|before| + n] == call;
    var m := FirstMatch(tools, id);
    assert m.Some?;
    var found := tools[m.value];
    assert forall j :: 0 <= j < |before| ==> tools[j] == before[j];
    assert m.value >= |before|;
    assert found in finished by {
      assert found == finished[m.value - |before|];
    }
    FinishedIn(lanes, order, found);
    var u :| u in order && LaneCall(lanes[u]) == Some(found);
    assert IsCallee(lanes, id, u);
    assert forall x :: IsCallee(lanes, id, x) ==> x == t;
  }

  lemma ValuesSnoc<T>(m: map<int, T>, order: seq<int>, i: int)
    requires (forall k :: 0 <= k < |order| ==> order[k] in m) && i in m
    ensures Values(m, order + [i]) == Values(m, order) + [m[i]]
  {
  }

  /** A stop puts out what its lane comes to. */
  lemma StopOutput(s: State, t: State, lanes: Lanes, order: seq<int>, i: int)
    requires (forall k :: 0 <= k < |order| ==> order[k] in lanes) && i in lanes
    requires OutputAgrees(s, t, lanes, order) && FreshIds(lanes, s.result.tools)
    requires
      match lanes[i]
      case ToolLane(id, name, parts) => i in t.tools && t.tools[i] == InflightTool(name, id, parts)
      case ResultLane(id, _, parts) =>
        && i !in t.tools && i in t.results && t.results[i] == InflightResult(id, parts)
        && CalleeStopped(lanes, order, id)
    ensures OutputAgrees(s, OnStop(t, i), lanes, order + [i])
  {
    hide Values, Somes, FirstMatch, FreshIds, CalleeStopped, Concat;
    var calls, answers := LaneCalls(lanes), Answers(lanes);
    ValuesSnoc(calls, order, i);
    ValuesSnoc(answers, order, i);
    SomesSnoc(Values(calls, order), calls[i]);
    SomesSnoc(Values(answers, order), answers[i]);
    if lanes[i].ToolLane? {
      Assoc(s.result.tools, Somes(Values(calls, order)), [calls[i].value]);
    } else {
      ResultFindsItsCall(t.result.tools, s.result.tools, lanes, order, i);
      Assoc(s.result.executions, Somes(Values(answers, order)), [answers[i].value]);
    }
  }

  lemma {:induction false} OutputStep(s: State, t: State, lanes: Lanes, es: seq<Event>, k: nat)
    requires Interleaves(es, lanes) && k < |es|
    requires InflightAgrees(t, lanes, es[..k]) && StopsAgree(lanes, es[..k])
    requires OutputAgrees(s, t, lanes, StopOrder(es[..k]))
    requires FreshIds(lanes, s.result.tools) && ResultsAfterCalls(es, lanes)
    ensures
      var order := StopOrder(es[..k + 1]);
      forall n :: 0 <= n < |order| ==> order[n] in lanes
    ensures OutputAgrees(s, Handle(t, es[k]), lanes, StopOrder(es[..k + 1]))
  {
    hide Project, StopOrder, Values, Somes, Interleaves, CloseText, CloseThinking, FirstMatch, FreshIds, CalleeStopped;
    var i := NextInLane(es, lanes, k);
    if es[k].BlockStop? {
      hide OutputAgrees, OnStop;
      var parts := lanes[i].parts;
      assert parts[..Pos(es[..k], i) - 1] == parts;
      StopOutput(s, t, lanes, StopOrder(es[..k]), i);
    } else {
      ClosingKeepsInflight(t);
      ClosingKeepsInflight(CloseText(t));
    }
  }

  // ----------------------------------------------------------------------- theorem

  lemma {:induction false} RunLanes(s: State, lanes: Lanes, es: seq<Event>, k: nat)
    requires Interleaves(es, lanes) && k <= |es|
    requires s.tools == map[] && s.results == map[]
    requires FreshIds(lanes, s.result.tools) && ResultsAfterCalls(es, lanes)
    ensures
      var t := Run(s, es[..k]);
      InflightAgrees(t, lanes, es[..k]) && StopsAgree(lanes, es[..k])
      && OutputAgrees(s, t, lanes, StopOrder(es[..k]))
  {
    hide Handle, Interleaves, FreshIds, ResultsAfterCalls;
    if k == 0 {
      assert es[..0] == [];
      assert s.result.tools + [] == s.result.tools && s.result.executions + [] == s.result.executions;
    } else {
      hide InflightAgrees, OutputAgrees;
      RunLanes(s, lanes, es, k - 1);
      var t := Run(s, es[..k - 1]);
      assert es[..k] == es[..k - 1] + [es[k - 1]];
      RunSnoc(s, es[..k - 1], es[k - 1]);
      StopsStep(lanes, es, k - 1);
      OutputStep(s, t, lanes, es, k - 1);
      InflightStep(t, lanes, es, k - 1);
    }
  }

  /**
   * Any interleaving of tool and result blocks with distinct indices: at the end nothing
   * is in flight, each tool has exactly its own parts, each result is paired with its own
   * call, and both lists are in the order of the stops.
   */
  lemma InterleavedBlocks(s: State, lanes: Lanes, es: seq<Event>)
    requires Interleaves(es, lanes)
    requires s.tools == map[] && s.results == map[]
    requires FreshIds(lanes, s.result.tools) && ResultsAfterCalls(es, lanes)
    ensures IsOrder(StopOrder(es), lanes)
    ensures Run(s, es).tools == map[] && Run(s, es).results == map[]
    ensures OutputAgrees(s, Run(s, es), lanes, StopOrder(es))
  {
    hide Run, OutputAgrees, FreshIds, ResultsAfterCalls, StopOrder, Project;
    RunLanes(s, lanes, es, |es|);
    assert es[..|es|] == es;
    var t := Run(s, es);
    assert forall i :: i in lanes ==> Pos(es, i) == Length(lanes[i]);
    EmptyMap(t.tools);
    EmptyMap(t.results);
  }

  lemma EmptyMap<T>(m: map<int, T>)
    requires forall i :: i !in m
    ensures m == map[]
  {
    if m.Keys != {} {
      var x := AnyOf(m.Keys);
      assert false;
    }
  }

  /** So tools and executions, as multisets, do not depend on the interleaving. */
  lemma {:induction false} InterleavingInvariance(s: State, lanes: Lanes, a: seq<Event>, b: seq<Event>)
    requires Interleaves(a, lanes) && Interleaves(b, lanes)
    requires s.tools == map[] && s.results == map[]
    requires FreshIds(lanes, s.result.tools) && ResultsAfterCalls(a, lanes) && ResultsAfterCalls(b, lanes)
    ensures multiset(Run(s, a).result.tools) == multiset(Run(s, b).result.tools)
    ensures multiset(Run(s, a).result.executions) == multiset(Run(s, b).result.executions)
  {
    hide Run, Interleaves, FreshIds, ResultsAfterCalls, StopOrder, Values, Somes, IsOrder;
    InterleavedBlocks(s, lanes, a);
    InterleavedBlocks(s, lanes, b);
    var oa, ob := StopOrder(a), StopOrder(b);
    SameDomain(lanes, oa);
    SameDomain(lanes, ob);
    OrdersAgree(LaneCalls(lanes), oa, ob);
    OrdersAgree(Answers(lanes), oa, ob);
    SomesAgree(Values(LaneCalls(lanes), oa), Values(LaneCalls(lanes), ob));
    SomesAgree(Values(Answers(lanes), oa), Values(Answers(lanes), ob));
  }

  lemma SameDomain(lanes: Lanes, order: seq<int>)
    requires IsOrder(order, lanes)
    ensures IsOrder(order, LaneCalls(lanes)) && IsOrder(order, Answers(lanes))
    ensures forall k :: 0 <= k < |order| ==> order[k] in lanes
  {
  }
}
