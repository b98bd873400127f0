/**
 * What the order of map iteration at the end of a stream can and cannot change, and
 * which tools survive to the result.
 */
module FlushOrder {
  import opened Octets
  import opened Protocol
  import opened Reassembler
  import opened ReassemblyLaws

  // -------------------------------------------------------------------- counting

  /** How many keys of a map hold a value. */
  ghost function Tally<T>(m: map<int, T>, x: T): nat {
    |set i | i in m && m[i] == x|
  }

  lemma TallyEmpty<T>(m: map<int, T>, x: T)
    requires m == map[]
    ensures Tally(m, x) == 0
  {
  }

  lemma CountSnoc<T>(s: seq<T>, v: T, x: T)
    ensures multiset(s + [v])[x] == multiset(s)[x] + if v == x then 1 else 0
  {
  }

  lemma TallyAdd<T>(m: map<int, T>, i: int, v: T, x: T)
    requires i !in m
    ensures Tally(m[i := v], x) == Tally(m, x) + if v == x then 1 else 0
  {
    var n := m[i := v];
    var a, b := set j | j in m && m[j] == x, set j | j in n && n[j] == x;
    assert b == if v == x then a + {i} else a;
  }

  lemma TallyRemove<T>(m: map<int, T>, i: int, x: T)
    requires i in m
    ensures Tally(m, x) == Tally(m - {i}, x) + if m[i] == x then 1 else 0
  {
    var n := m - {i};
    var a, b := set j | j in m && m[j] == x, set j | j in n && n[j] == x;
    assert a == if m[i] == x then b + {i} else b;
    assert i !in b;
  }

  lemma TallyReplace<T>(m: map<int, T>, i: int, v: T, x: T)
    requires i in m
    ensures Tally(m[i := v], x) + (if m[i] == x then 1 else 0) == Tally(m, x) + if v == x then 1 else 0
  {
    hide Tally;
    TallyRemove(m, i, x);
    TallyAdd(m - {i}, i, v, x);
    assert (m - {i})[i := v] == m[i := v];
  }

  lemma {:induction false} ValuesAgree<T>(m: map<int, T>, n: map<int, T>, order: seq<int>)
    requires forall k :: 0 <= k < |order| ==> order[k] in m && order[k] in n && m[order[k]] == n[order[k]]
    ensures Values(m, order) == Values(n, order)
  {
    if order != [] {
      ValuesAgree(m, n, order[..|order| - 1]);
    }
  }

  /** Enumerating a map yields each value as often as the map holds it. */
  lemma {:induction false} OrderTally<T>(m: map<int, T>, order: seq<int>, x: T)
    requires IsOrder(order, m)
    ensures multiset(Values(m, order))[x] == Tally(m, x)
  {
    if order == [] {
      assert m.Keys == {} by {
        if m.Keys != {} {
          var some := AnyOf(m.Keys);
          assert false;
        }
      }
      TallyEmpty(m, x);
    } else {
      var init, i := order[..|order| - 1], order[|order| - 1];
      var n := m - {i};
      InitIsOrder(m, order);
      OrderTally(n, init, x);
      ValuesAgree(m, n, init);
      TallyRemove(m, i, x);
    }
  }

  lemma InitIsOrder<T>(m: map<int, T>, order: seq<int>)
    requires order != [] && IsOrder(order, m)
    ensures IsOrder(order[..|order| - 1], m - {order[|order| - 1]})
  {
  }

  lemma {:induction false} OrdersAgree<T(!new)>(m: map<int, T>, a: seq<int>, b: seq<int>)
    requires IsOrder(a, m) && IsOrder(b, m)
    ensures multiset(Values(m, a)) == multiset(Values(m, b))
  {
    forall x: T
      ensures multiset(Values(m, a))[x] == multiset(Values(m, b))[x]
    {
      OrderTally(m, a, x);
      OrderTally(m, b, x);
    }
  }

  lemma {:induction false} SomesCount<T>(s: seq<Option<T>>, x: T)
    ensures multiset(Somes(s))[x] == multiset(s)[Some(x)]
  {
    if s != [] {
      var init, last := s[..|s| - 1], s[|s| - 1];
      SomesCount(init, x);
      assert s == init + [last];
      assert multiset(s) == multiset(init) + multiset{last};
    }
  }

  lemma SomesAgree<T(!new)>(a: seq<Option<T>>, b: seq<Option<T>>)
    requires multiset(a) == multiset(b)
    ensures multiset(Somes(a)) == multiset(Somes(b))
  {
    forall x: T
      ensures multiset(Somes(a))[x] == multiset(Somes(b))[x]
    {
      SomesCount(a, x);
      SomesCount(b, x);
    }
  }

  // ------------------------------------------------------------- order of flushing

  predicate DistinctIds(tools: seq<ToolCall>) {
    forall j, k :: 0 <= j < k < |tools| ==> tools[j].toolUseID != tools[k].toolUseID
  }

  /** A result in flight that no finished call answers to, but two different calls in flight do. */
  ghost predicate ContestedBy(s: State, i: int, a: int, b: int) {
    && i in s.results && a in s.tools && b in s.tools
    && s.tools[a].toolUseID == s.results[i].toolUseID == s.tools[b].toolUseID
    && FirstMatch(s.result.tools, s.results[i].toolUseID) == None
    && FinishedCall(s.tools[a]) != FinishedCall(s.tools[b])
  }

  ghost predicate Contested(s: State) {
    exists i, a, b :: ContestedBy(s, i, a, b)
  }

  lemma {:induction false} ValuesAt<T>(m: map<int, T>, order: seq<int>)
    requires forall k :: 0 <= k < |order| ==> order[k] in m
    ensures |Values(m, order)| == |order|
    ensures forall k :: 0 <= k < |order| ==> Values(m, order)[k] == m[order[k]]
  {
    if order != [] {
      ValuesAt(m, order[..|order| - 1]);
    }
  }

  /** The calls a result is looked up in once the tools in flight are finished. */
  ghost function AfterTools(s: State, order: seq<int>): seq<ToolCall>
    requires forall k :: 0 <= k < |order| ==> order[k] in s.tools
  {
    s.result.tools + Values(Calls(s.tools), order)
  }

  /** A call with the id that is not a finished one is one of those in flight. */
  lemma MatchAmongFlushed(s: State, order: seq<int>, id: string)
    requires IsOrder(order, s.tools) && FirstMatch(s.result.tools, id) == None
    ensures
      var tools := AfterTools(s, order);
      match FirstMatch(tools, id)
      case None => forall a :: a in s.tools ==> s.tools[a].toolUseID != id
      case Some(k) => exists a :: a in s.tools && s.tools[a].toolUseID == id && tools[k] == FinishedCall(s.tools[a])
  {
    hide FirstMatch, Values;
    var n, tools, calls := |s.result.tools|, AfterTools(s, order), Calls(s.tools);
    ValuesAt(calls, order);
    assert forall j :: 0 <= j < n ==> tools[j] == s.result.tools[j];
    assert forall j :: 0 <= j < |order| ==> tools[n + j] == calls[order[j]];
    match FirstMatch(tools, id)
    case None =>
      forall a | a in s.tools
        ensures s.tools[a].toolUseID != id
      {
        var j := PlaceOf(s.tools, order, a);
        assert tools[n + j].toolUseID != id;
      }
    case Some(k) =>
      var a := order[k - n];
      assert a in s.tools && tools[k] == FinishedCall(s.tools[a]);
  }

  /** An uncontested result finds the same call in whatever order the tools were finished. */
  lemma UncontestedLookup(s: State, t1: seq<int>, t2: seq<int>, i: int)
    requires !Contested(s) && i in s.results
    requires IsOrder(t1, s.tools) && IsOrder(t2, s.tools)
    ensures Matched(AfterTools(s, t1), s.results[i]) == Matched(AfterTools(s, t2), s.results[i])
  {
    hide FirstMatch, Values, FinishedCall, Contested, IsOrder;
    IsOrderBounds(s.tools, t1);
    IsOrderBounds(s.tools, t2);
    var id := s.results[i].toolUseID;
    if FirstMatch(s.result.tools, id).Some? {
      FirstMatchStays(s.result.tools, Values(Calls(s.tools), t1), id);
      FirstMatchStays(s.result.tools, Values(Calls(s.tools), t2), id);
    } else {
      MatchAmongFlushed(s, t1, id);
      MatchAmongFlushed(s, t2, id);
      var j, k := FirstMatch(AfterTools(s, t1), id), FirstMatch(AfterTools(s, t2), id);
      if j.Some? && k.Some? {
        var a :| a in s.tools && s.tools[a].toolUseID == id && AfterTools(s, t1)[j.value] == FinishedCall(s.tools[a]);
        var b :| b in s.tools && s.tools[b].toolUseID == id && AfterTools(s, t2)[k.value] == FinishedCall(s.tools[b]);
        Uncontested(s, i, a, b);
      }
    }
  }

  lemma Uncontested(s: State, i: int, a: int, b: int)
    requires !Contested(s)
    ensures !ContestedBy(s, i, a, b)
  {
  }

  /** What a flush comes to, given the orders. */
  lemma FlushedOutput(s: State, to: seq<int>, ro: seq<int>)
    requires IsFlush(s, to, ro)
    ensures forall k :: 0 <= k < |to| ==> to[k] in s.tools
    ensures forall k :: 0 <= k < |ro| ==> ro[k] in s.results
    ensures
      var r, c := Finalized(s, to, ro), CloseThinking(CloseText(s));
      && r.tools == AfterTools(s, to)
      && r.executions == s.result.executions + Somes(Values(AllMatched(AfterTools(s, to), s.results), ro))
      && r.timeline == c.result.timeline + Shown(Somes(Values(AllMatched(AfterTools(s, to), s.results), ro)))
      && r.text == Concat(c.allText) && r.thinking == Concat(c.allThinking) && r.toolNames == s.result.toolNames
      && r.streamID == s.result.streamID && r.error == s.result.error
  {
    hide CloseText, CloseThinking, FlushTools, FlushResults, Values, Somes, Shown, AllMatched, IsOrder;
    IsOrderBounds(s.tools, to);
    IsOrderBounds(s.results, ro);
    ClosingKeepsInflight(s);
    ClosingKeepsInflight(CloseText(s));
    var c := CloseThinking(CloseText(s)).result;
    FlushToolsAdds(c, s.tools, to);
    FlushResultsAdds(FlushTools(c, s.tools, to), s.results, ro);
  }

  /** Two calls that contest a result have the same id, so distinct ids leave no contest. */
  lemma ContestRepeatsAnId(s: State, to: seq<int>)
    requires IsOrder(to, s.tools)
    ensures Contested(s) ==> !DistinctIds(AfterTools(s, to))
  {
    hide Values, FirstMatch, FinishedCall;
    ValuesAt(Calls(s.tools), to);
    if Contested(s) {
      var i, a, b := Contest(s);
      var j := PlaceOf(s.tools, to, a);
      var k := PlaceOf(s.tools, to, b);
      var n, tools := |s.result.tools|, AfterTools(s, to);
      assert tools[n + j] == FinishedCall(s.tools[a]) && tools[n + k] == FinishedCall(s.tools[b]);
      SameId(s.tools[a], s.tools[b]);
      assert j != k;
    }
  }

  lemma PlaceOf<T>(m: map<int, T>, order: seq<int>, i: int) returns (k: nat)
    requires IsOrder(order, m) && i in m
    ensures k < |order| && order[k] == i
  {
    k :| 0 <= k < |order| && order[k] == i;
  }

  lemma Contest(s: State) returns (i: int, a: int, b: int)
    requires Contested(s)
    ensures ContestedBy(s, i, a, b)
  {
    i, a, b :| ContestedBy(s, i, a, b);
  }

  lemma SameId(a: InflightTool, b: InflightTool)
    requires a.toolUseID == b.toolUseID && FinishedCall(a) != FinishedCall(b)
    ensures FinishedCall(a).toolUseID == FinishedCall(b).toolUseID
    ensures FinishedCall(a).name != FinishedCall(b).name || FinishedCall(a).params != FinishedCall(b).params
  {
  }

  /**
   * Whatever order the maps yield, the same tools come out, as multisets; and if no result
   * is contested, as when the ids are distinct, the same executions.
   */
  lemma FlushOrderIrrelevant(s: State, t1: seq<int>, r1: seq<int>, t2: seq<int>, r2: seq<int>)
    requires IsFlush(s, t1, r1) && IsFlush(s, t2, r2)
    ensures
      var a, b := Finalized(s, t1, r1), Finalized(s, t2, r2);
      && multiset(a.tools) == multiset(b.tools)
      && (!Contested(s) || DistinctIds(a.tools) ==> multiset(a.executions) == multiset(b.executions))
      && a.text == b.text && a.thinking == b.thinking && a.toolNames == b.toolNames
  {
    hide CloseText, CloseThinking, Finalized, Values, Somes, IsOrder, Matched, FinishedCall, Contested, DistinctIds;
    FlushedOutput(s, t1, r1);
    ContestRepeatsAnId(s, t1);
    FlushedOutput(s, t2, r2);
    OrderOfMapped(s.tools, t1);
    OrderOfMapped(s.tools, t2);
    OrdersAgree(Calls(s.tools), t1, t2);
    if !Contested(s) {
      var m1, m2 := AllMatched(AfterTools(s, t1), s.results), AllMatched(AfterTools(s, t2), s.results);
      forall i | i in s.results ensures m1[i] == m2[i] {
        UncontestedLookup(s, t1, t2, i);
      }
      assert m1 == m2;
      OrderOfMatched(AfterTools(s, t1), s.results, r1);
      OrderOfMatched(AfterTools(s, t1), s.results, r2);
      OrdersAgree(m1, r1, r2);
      SomesAgree(Values(m1, r1), Values(m1, r2));
    }
  }

  lemma IsOrderBounds<T>(m: map<int, T>, order: seq<int>)
    requires IsOrder(order, m)
    ensures forall k :: 0 <= k < |order| ==> order[k] in m
  {
  }

  lemma OrderOfMapped(tools: map<int, InflightTool>, order: seq<int>)
    requires IsOrder(order, tools)
    ensures IsOrder(order, Calls(tools))
  {
  }

  lemma OrderOfMatched(tools: seq<ToolCall>, results: map<int, InflightResult>, order: seq<int>)
    requires IsOrder(order, results)
    ensures IsOrder(order, AllMatched(tools, results))
  {
  }

  // ---------------------------------------------------------- which tools come out

  /** No tool_use block starts at an index that has one in flight. */
  predicate NoReuse(es: seq<Event>) {
    forall k :: 0 <= k < |es| && es[k].BlockStart? && es[k].block.ToolUseBlock? ==> !ToolInFlight(es[..k], es[k].index)
  }

  /** The tools a later start at the same index replaced while they were in flight. */
  function Lost(es: seq<Event>): seq<Tag> {
    if es == [] then [] else
      var before, e := es[..|es| - 1], es[|es| - 1];
      var tools := Run(INITIAL, before).tools;
      Lost(before)
      + if e.BlockStart? && e.block.ToolUseBlock? && e.index in tools then [TagOf(tools[e.index])] else []
  }

  function TagOf(t: InflightTool): Tag {
    Tag(t.toolUseID, t.name)
  }

  function TagMap(tools: map<int, InflightTool>): map<int, Tag> {
    map i | i in tools :: TagOf(tools[i])
  }

  function Tags(calls: seq<ToolCall>): (r: seq<Tag>)
    ensures |r| == |calls| && forall k :: 0 <= k < |r| ==> r[k] == Tag(calls[k].toolUseID, calls[k].name)
  {
    if calls == [] then []
    else Tags(calls[..|calls| - 1]) + [Tag(calls[|calls| - 1].toolUseID, calls[|calls| - 1].name)]
  }

  lemma TagsSnoc(calls: seq<ToolCall>, c: ToolCall)
    ensures Tags(calls + [c]) == Tags(calls) + [Tag(c.toolUseID, c.name)]
  {
  }

  lemma {:induction false} TagsAppend(a: seq<ToolCall>, b: seq<ToolCall>)
    ensures Tags(a + b) == Tags(a) + Tags(b)
  {
  }

  /** Every start is finished, in flight, or was replaced. */
  ghost predicate Accounted(s: State, es: seq<Event>, x: Tag) {
    multiset(Starts(es))[x] == multiset(Tags(s.result.tools))[x] + Tally(TagMap(s.tools), x) + multiset(Lost(es))[x]
  }

  lemma LostSnoc(es: seq<Event>, e: Event)
    ensures
      var tools := Run(INITIAL, es).tools;
      Lost(es + [e]) ==
        if e.BlockStart? && e.block.ToolUseBlock? && e.index in tools
        then Lost(es) + [TagOf(tools[e.index])] else Lost(es)
  {
  }

  lemma StartAddsTag(s: State, e: Event)
    requires e.BlockStart? && e.block.ToolUseBlock?
    ensures TagMap(Handle(s, e).tools) == TagMap(s.tools)[e.index := Tag(e.block.id, e.block.name)]
    ensures Handle(s, e).result.tools == s.result.tools
  {
    hide CloseText, CloseThinking;
    ClosingKeepsInflight(s);
    ClosingKeepsInflight(CloseText(s));
  }

  lemma {:induction false} StartAccounted(s: State, es: seq<Event>, e: Event, x: Tag)
    requires s == Run(INITIAL, es) && Accounted(s, es, x)
    requires e.BlockStart? && e.block.ToolUseBlock?
    ensures Accounted(Handle(s, e), es + [e], x)
  {
    hide Handle, Run, Starts, Lost, Tags, Tally;
    var t, tag := Handle(s, e), Tag(e.block.id, e.block.name);
    ReadEvent(es, e);
    LostSnoc(es, e);
    CountSnoc(Starts(es), tag, x);
    var m, i := TagMap(s.tools), e.index;
    StartAddsTag(s, e);
    if i in s.tools {
      CountSnoc(Lost(es), m[i], x);
      TallyReplace(m, i, tag, x);
    } else {
      TallyAdd(m, i, tag, x);
    }
  }

  /** Events that neither start nor stop a tool leave every tool's tag where it was. */
  lemma OtherKeepsTags(s: State, e: Event)
    requires !(e.BlockStart? && e.block.ToolUseBlock?) && !(e.BlockStop? && e.index in s.tools)
    ensures TagMap(Handle(s, e).tools) == TagMap(s.tools)
    ensures Handle(s, e).result.tools == s.result.tools
  {
    hide CloseText, CloseThinking;
    ClosingKeepsInflight(s);
    ClosingKeepsInflight(CloseText(s));
    ClosingKeepsInflight(CloseThinking(s));
  }

  lemma StopMovesTag(s: State, e: Event)
    requires e.BlockStop? && e.index in s.tools
    ensures TagMap(Handle(s, e).tools) == TagMap(s.tools) - {e.index}
    ensures Tags(Handle(s, e).result.tools) == Tags(s.result.tools) + [TagMap(s.tools)[e.index]]
  {
  }

  lemma {:induction false} OtherAccounted(s: State, es: seq<Event>, e: Event, x: Tag)
    requires s == Run(INITIAL, es) && Accounted(s, es, x)
    requires !(e.BlockStart? && e.block.ToolUseBlock?)
    ensures Accounted(Handle(s, e), es + [e], x)
  {
    hide Handle, Run, Starts, Lost, Tags, Tally;
    var m := TagMap(s.tools);
    ReadEvent(es, e);
    LostSnoc(es, e);
    if e.BlockStop? && e.index in s.tools {
      StopMovesTag(s, e);
      TallyRemove(m, e.index, x);
      CountSnoc(Tags(s.result.tools), m[e.index], x);
    } else {
      OtherKeepsTags(s, e);
    }
  }

  lemma {:induction false} RunAccounted(es: seq<Event>, x: Tag)
    ensures Accounted(Run(INITIAL, es), es, x)
  {
    hide Accounted, Handle;
    if es == [] {
      NothingAccounted(x);
    } else {
      var before, e := es[..|es| - 1], es[|es| - 1];
      RunAccounted(before, x);
      assert before + [e] == es;
      if e.BlockStart? && e.block.ToolUseBlock? {
        StartAccounted(Run(INITIAL, before), before, e, x);
      } else {
        OtherAccounted(Run(INITIAL, before), before, e, x);
      }
    }
  }

  lemma NothingAccounted(x: Tag)
    ensures Accounted(INITIAL, [], x)
  {
  }

  lemma NoReuseSnoc(es: seq<Event>, e: Event)
    ensures NoReuse(es + [e]) <==>
              NoReuse(es) && (e.BlockStart? && e.block.ToolUseBlock? ==> !ToolInFlight(es, e.index))
  {
    hide ToolInFlight;
    var u := es + [e];
    assert u[..|es|] == es && u[|es|] == e;
    assert forall k :: 0 <= k < |es| ==> u[k] == es[k] && u[..k] == es[..k];
  }

  lemma {:induction false} NothingLostIff(es: seq<Event>)
    ensures Lost(es) == [] <==> NoReuse(es)
  {
    if es != [] {
      hide Run, ToolInFlight, ResultInFlight, OpenThinking, NoReuse, Lost;
      var before, e := es[..|es| - 1], es[|es| - 1];
      NothingLostIff(before);
      RunRoutes(before);
      NoReuseSnoc(before, e);
      LostSnoc(before, e);
      assert before + [e] == es;
    }
  }

  /** A finished stream's tools, whatever the flush order: all starts but the replaced ones. */
  lemma {:induction false} FinishedTags(s: State, es: seq<Event>, to: seq<int>, ro: seq<int>)
    requires s.result.tools == Run(INITIAL, es).result.tools && s.tools == Run(INITIAL, es).tools
    requires IsFlush(s, to, ro)
    ensures multiset(Starts(es)) == multiset(Tags(Finalized(s, to, ro).tools)) + multiset(Lost(es))
  {
    hide CloseText, CloseThinking, FlushTools, FlushResults, Run, Starts, Lost, Tags, Values, FinishedCall;
    var c := CloseThinking(CloseText(s));
    ClosingKeepsInflight(s);
    ClosingKeepsInflight(CloseText(s));
    var r := Finalized(s, to, ro);
    FlushToolsAdds(c.result, s.tools, to);
    FlushResultsAdds(FlushTools(c.result, s.tools, to), s.results, ro);
    var added := Values(Calls(s.tools), to);
    TagsAppend(s.result.tools, added);
    TagsOfValues(s.tools, to);
    forall x: Tag
      ensures multiset(Starts(es))[x] == (multiset(Tags(r.tools)) + multiset(Lost(es)))[x]
    {
      RunAccounted(es, x);
      assert IsOrder(to, TagMap(s.tools));
      OrderTally(TagMap(s.tools), to, x);
    }
  }

  lemma {:induction false} TagsOfValues(tools: map<int, InflightTool>, order: seq<int>)
    requires forall k :: 0 <= k < |order| ==> order[k] in tools
    ensures Tags(Values(Calls(tools), order)) == Values(TagMap(tools), order)
  {
    if order != [] {
      var init := order[..|order| - 1];
      var t := tools[order[|order| - 1]];
      TagsOfValues(tools, init);
      TagsSnoc(Values(Calls(tools), init), FinishedCall(t));
      assert Values(Calls(tools), order) == Values(Calls(tools), init) + [FinishedCall(t)];
      assert Values(TagMap(tools), order) == Values(TagMap(tools), init) + [TagOf(t)];
    }
  }

  function CallNames(calls: seq<ToolCall>): seq<string> {
    Names(Tags(calls))
  }

  lemma {:induction false} NamesCount(tags: seq<Tag>)
    ensures |Names(tags)| == |tags|
    ensures forall k :: 0 <= k < |tags| ==> Names(tags)[k] == tags[k].name
  {
    if tags != [] {
      NamesCount(tags[..|tags| - 1]);
    }
  }

  function Without<T>(s: seq<T>, k: nat): seq<T>
    requires k < |s|
  {
    s[..k] + s[k + 1..]
  }

  lemma WithoutCount<T>(s: seq<T>, k: nat)
    requires k < |s|
    ensures multiset(s) == multiset(Without(s, k)) + multiset{s[k]}
  {
    assert s == s[..k] + ([s[k]] + s[k + 1..]);
  }

  lemma {:induction false} NamesWithout(b: seq<Tag>, k: nat)
    requires k < |b|
    ensures |Names(b)| == |b| && Names(b)[k] == b[k].name
    ensures Names(Without(b, k)) == Without(Names(b), k)
  {
    hide Names;
    NamesCount(b);
    NamesCount(Without(b, k));
  }

  lemma WithoutAgree<T>(a: seq<T>, j: nat, b: seq<T>, k: nat)
    requires j < |a| && k < |b| && a[j] == b[k]
    ensures multiset(a) == multiset(b) <==> multiset(Without(a, j)) == multiset(Without(b, k))
  {
    hide Without;
    WithoutCount(a, j);
    WithoutCount(b, k);
    assert multiset(Without(a, j)) == multiset(a) - multiset{a[j]};
    assert multiset(Without(b, k)) == multiset(b) - multiset{b[k]};
  }

  lemma {:induction false} NamesAgree(a: seq<Tag>, b: seq<Tag>)
    requires multiset(a) == multiset(b)
    ensures multiset(Names(a)) == multiset(Names(b))
    decreases |a|
  {
    if a == [] {
      assert |multiset(b)| == 0 && b == [];
    } else {
      hide Names, Without;
      var j := |a| - 1;
      assert a[j] in multiset(b);
      var k := TagPlace(b, a[j]);
      WithoutAgree(a, j, b, k);
      WithoutSize(a, j);
      NamesAgree(Without(a, j), Without(b, k));
      NamesWithout(a, j);
      NamesWithout(b, k);
      WithoutAgree(Names(a), j, Names(b), k);
    }
  }

  lemma WithoutSize<T>(s: seq<T>, k: nat)
    requires k < |s|
    ensures |Without(s, k)| == |s| - 1
  {
  }

  /**
   * The names in `Tools` are a permutation of `ToolNames` exactly when no index was
   * reused while a tool was in flight there; otherwise some tool is missing. The order in
   * which the maps are flushed has no say in it.
   */
  lemma ToolNamesArePermutationIff(events: seq<Event>, failure: string, r: Parsed)
    requires Reassembles(events, failure, r)
    ensures multiset(CallNames(r.tools)) == multiset(r.toolNames) <==> NoReuse(Handled(events))
  {
    hide Finalized, Run, Handled, NoReuse, Lost, Starts, Tags, Names;
    var h := Handled(events);
    Conservation(events, failure, r);
    var s := EndState(events, failure);
    var to, ro :| IsFlush(s, to, ro) && r == Finalized(s, to, ro);
    FinishedTags(s, h, to, ro);
    NothingLostIff(h);
    var tags, lost := Tags(r.tools), Lost(h);
    if lost == [] {
      NamesAgree(Starts(h), tags);
    } else {
      assert |multiset(Starts(h))| == |multiset(tags)| + |multiset(lost)|;
      NamesCount(Starts(h));
      NamesCount(tags);
      assert |multiset(Names(tags))| < |multiset(Names(Starts(h)))|;
    }
  }

  predicate DistinctStarts(es: seq<Event>) {
    forall j, k :: 0 <= j < k < |Starts(es)| ==> Starts(es)[j].id != Starts(es)[k].id
  }

  /** Distinct ids on the wire stay distinct in the result. */
  lemma DistinctStartsGiveDistinctIds(events: seq<Event>, failure: string, r: Parsed)
    requires Reassembles(events, failure, r) && DistinctStarts(Handled(events))
    ensures DistinctIds(r.tools)
  {
    hide Finalized, Run, Handled, Lost, Starts;
    var h := Handled(events);
    var s := EndState(events, failure);
    var to, ro :| IsFlush(s, to, ro) && r == Finalized(s, to, ro);
    FinishedTags(s, h, to, ro);
    var tags, starts := Tags(r.tools), Starts(h);
    forall j, k | 0 <= j < k < |r.tools|
      ensures r.tools[j].toolUseID != r.tools[k].toolUseID
    {
      if tags[j].id == tags[k].id {
        TwiceIn(tags, j, k);
        var a := TagPlace(starts, tags[j]);
        var b := TagPlace(starts, tags[k]);
        assert a == b;
        OnceIn(starts, a);
        assert false;
      }
    }
  }

  lemma TagPlace(tags: seq<Tag>, tag: Tag) returns (k: nat)
    requires tag in multiset(tags)
    ensures k < |tags| && tags[k] == tag
  {
    k :| 0 <= k < |tags| && tags[k] == tag;
  }

  lemma TwiceIn(s: seq<Tag>, j: nat, k: nat)
    requires j < k < |s|
    ensures s[j] == s[k] ==> multiset(s)[s[j]] >= 2
  {
    assert s == s[..j] + [s[j]] + s[j + 1..k] + [s[k]] + s[k + 1..];
  }

  lemma OnceIn(s: seq<Tag>, a: nat)
    requires a < |s| && forall j, k :: 0 <= j < k < |s| ==> s[j] != s[k]
    ensures multiset(s)[s[a]] == 1
  {
    assert s == s[..a] + [s[a]] + s[a + 1..];
    assert s[a] !in s[..a] && s[a] !in s[a + 1..];
  }

  /** So with distinct ids all possible results of a stream have, as multisets, the same tools and executions. */
  lemma ReassemblyIsUniqueUpToOrder(events: seq<Event>, failure: string, a: Parsed, b: Parsed)
    requires Reassembles(events, failure, a) && Reassembles(events, failure, b)
    requires DistinctStarts(Handled(events))
    ensures multiset(a.tools) == multiset(b.tools) && multiset(a.executions) == multiset(b.executions)
    ensures a.text == b.text && a.thinking == b.thinking && a.toolNames == b.toolNames
  {
    hide Finalized, DistinctStarts, DistinctIds, IsFlush, EndState, Contested;
    var s := EndState(events, failure);
    var t1, r1 :| IsFlush(s, t1, r1) && a == Finalized(s, t1, r1);
    var t2, r2 :| IsFlush(s, t2, r2) && b == Finalized(s, t2, r2);
    DistinctStartsGiveDistinctIds(events, failure, a);
    FlushOrderIrrelevant(s, t1, r1, t2, r2);
  }

  // ------------------------------------------------------- when the order decides

  /** Some enumeration of a map's keys. */
  lemma {:induction false} SomeOrder<T>(m: map<int, T>) returns (order: seq<int>)
    ensures IsOrder(order, m)
    decreases m.Keys
  {
    order := [];
    if m.Keys != {} {
      var i := AnyOf(m.Keys);
      order := OrderFrom(m, i);
    }
  }

  /** An enumeration of a map's keys that begins with a given one. */
  lemma {:induction false} OrderFrom<T>(m: map<int, T>, i: int) returns (order: seq<int>)
    requires i in m
    ensures IsOrder(order, m) && order != [] && order[0] == i
    decreases m.Keys, 0
  {
    var rest := SomeOrder(m - {i});
    order := [i] + rest;
  }

  /** The tool finished first answers a contested result. */
  lemma FirstFlushedAnswers(s: State, i: int, a: int, b: int, to: seq<int>)
    requires ContestedBy(s, i, a, b) && IsOrder(to, s.tools) && to != [] && to[0] == a
    ensures
      var k := FirstMatch(AfterTools(s, to), s.results[i].toolUseID);
      k.Some? && AfterTools(s, to)[k.value] == FinishedCall(s.tools[a])
  {
    hide FirstMatch, Values;
    IsOrderBounds(s.tools, to);
    hide IsOrder;
    ValuesAt(Calls(s.tools), to);
    NextMatches(s.result.tools, Values(Calls(s.tools), to), s.results[i].toolUseID);
  }

  lemma NextMatches(tools: seq<ToolCall>, more: seq<ToolCall>, id: string)
    requires FirstMatch(tools, id) == None && more != [] && more[0].toolUseID == id
    ensures FirstMatch(tools + more, id) == Some(|tools|) && (tools + more)[|tools|] == more[0]
  {
    hide FirstMatch;
    var n, all := |tools|, tools + more;
    assert forall j :: 0 <= j < n ==> all[j] == tools[j];
    assert all[n] == more[0];
  }

  /** With `c` answering to the id, an execution of another call with that id does not come out. */
  lemma {:induction false} OtherCallLeavesNone(
      tools: seq<ToolCall>, results: map<int, InflightResult>, order: seq<int>, k: nat, x: Execution)
    requires forall j :: 0 <= j < |order| ==> order[j] in results
    requires FirstMatch(tools, x.toolUseID) == Some(k)
    requires x.name != tools[k].name || x.params != tools[k].params
    ensures x !in Somes(Values(AllMatched(tools, results), order))
  {
    hide FirstMatch;
    var m := AllMatched(tools, results);
    if order == [] {
      assert Values(m, order) == [] && Somes<Execution>([]) == [];
    } else {
      var init, last := order[..|order| - 1], order[|order| - 1];
      OtherCallLeavesNone(tools, results, init, k, x);
      assert m[last] == Matched(tools, results[last]) != Some(x);
      SomesSnoc(Values(m, init), m[last]);
      assert Values(m, order) == Values(m, init) + [m[last]];
    }
  }

  lemma {:induction false} ComesOut<T>(m: map<int, Option<T>>, order: seq<int>, i: int)
    requires (forall k :: 0 <= k < |order| ==> order[k] in m) && i in order && m[i].Some?
    ensures m[i].value in Somes(Values(m, order))
  {
    var init, last := order[..|order| - 1], order[|order| - 1];
    SomesSnoc(Values(m, init), m[last]);
    if last != i {
      assert i in init;
      ComesOut(m, init, i);
    }
  }

  /** Finishing `a` first or `b` first gives different executions. */
  lemma {:induction false} ContestedFlushesDiffer(s: State, i: int, a: int, b: int, t1: seq<int>, t2: seq<int>, ro: seq<int>)
    requires ContestedBy(s, i, a, b) && IsFlush(s, t1, ro) && IsFlush(s, t2, ro)
    requires t1 != [] && t1[0] == a && t2 != [] && t2[0] == b
    ensures multiset(Finalized(s, t1, ro).executions) != multiset(Finalized(s, t2, ro).executions)
  {
    hide Finalized, FirstMatch, Values, Somes, IsOrder, FinishedCall;
    var res, base := s.results[i], s.result.executions;
    FlushedOutput(s, t1, ro);
    FlushedOutput(s, t2, ro);
    FirstFlushedAnswers(s, i, a, b, t1);
    FirstFlushedAnswers(s, i, b, a, t2);
    SameId(s.tools[a], s.tools[b]);
    var m1, m2 := AllMatched(AfterTools(s, t1), s.results), AllMatched(AfterTools(s, t2), s.results);
    var x := Executed(FinishedCall(s.tools[a]), res);
    assert m1[i] == Some(x);
    ListsAll(s.results, ro, i);
    ComesOut(m1, ro, i);
    var k := FirstMatch(AfterTools(s, t2), res.toolUseID);
    OtherCallLeavesNone(AfterTools(s, t2), s.results, ro, k.value, x);
    MoreOf(base, Somes(Values(m1, ro)), Somes(Values(m2, ro)), x);
  }

  lemma ListsAll<T>(m: map<int, T>, order: seq<int>, i: int)
    requires IsOrder(order, m) && i in m
    ensures i in order
  {
  }

  lemma MoreOf<T>(base: seq<T>, a: seq<T>, b: seq<T>, x: T)
    requires x in a && x !in b
    ensures multiset(base + a) != multiset(base + b)
  {
    assert x in multiset(a) && x !in multiset(b);
    assert multiset(base + a)[x] > multiset(base + b)[x];
  }

  /**
   * As multisets, the executions of a stream depend on the order in which the maps are
   * flushed if and only if the stream ends with a contested result. (Tools always agree
   * as multisets, `FlushOrderIrrelevant`; for lists see `TurnIsUniqueIff`.)
   */
  lemma OrderDecidesIff(events: seq<Event>, failure: string)
    ensures Contested(EndState(events, failure)) <==>
              exists r, q :: Reassembles(events, failure, r) && Reassembles(events, failure, q)
                             && multiset(r.executions) != multiset(q.executions)
  {
    hide Finalized, EndState, IsFlush, Contested;
    var s := EndState(events, failure);
    if Contested(s) {
      var i, a, b := Contest(s);
      var t1 := OrderFrom(s.tools, a);
      var t2 := OrderFrom(s.tools, b);
      var ro := SomeOrder(s.results);
      FlushOf(s, t1, ro);
      FlushOf(s, t2, ro);
      ContestedFlushesDiffer(s, i, a, b, t1, t2, ro);
      var r, q := Finalized(s, t1, ro), Finalized(s, t2, ro);
      assert Reassembles(events, failure, r) && Reassembles(events, failure, q);
    } else {
      forall r, q | Reassembles(events, failure, r) && Reassembles(events, failure, q)
        ensures multiset(r.executions) == multiset(q.executions)
      {
        var t1, r1 :| IsFlush(s, t1, r1) && r == Finalized(s, t1, r1);
        var t2, r2 :| IsFlush(s, t2, r2) && q == Finalized(s, t2, r2);
        FlushOrderIrrelevant(s, t1, r1, t2, r2);
      }
    }
  }

  lemma FlushOf(s: State, to: seq<int>, ro: seq<int>)
    requires IsOrder(to, s.tools) && IsOrder(ro, s.results)
    ensures IsFlush(s, to, ro)
  {
  }

  // -------------------------------------------------------- when the turn is unique

  /** Two calls in flight come to different tools. */
  ghost predicate ToolsDiffer(s: State) {
    exists a, b :: a in s.tools && b in s.tools && FinishedCall(s.tools[a]) != FinishedCall(s.tools[b])
  }

  /** `c` is a call that the result in flight at `i` may be attached to. */
  ghost predicate MayAnswer(s: State, i: int, c: ToolCall) {
    && i in s.results
    && match FirstMatch(s.result.tools, s.results[i].toolUseID)
       case Some(k) => c == s.result.tools[k]
       case None =>
         exists a :: a in s.tools && s.tools[a].toolUseID == s.results[i].toolUseID && c == FinishedCall(s.tools[a])
  }

  ghost predicate ResultsDifferBy(s: State, i: int, j: int, c: ToolCall, d: ToolCall) {
    MayAnswer(s, i, c) && MayAnswer(s, j, d) && Executed(c, s.results[i]) != Executed(d, s.results[j])
  }

  /** Two results in flight have calls to attach to, and their executions differ. */
  ghost predicate ResultsDiffer(s: State) {
    exists i, j, c, d :: ResultsDifferBy(s, i, j, c, d)
  }

  lemma FinishedStays(tools: seq<ToolCall>, more: seq<ToolCall>, id: string)
    requires FirstMatch(tools, id).Some?
    ensures
      var j := FirstMatch(tools, id).value;
      FirstMatch(tools + more, id) == Some(j) && (tools + more)[j] == tools[j]
  {
    FirstMatchStays(tools, more, id);
  }

  /** What a result is attached to is one of the calls that may answer it. */
  lemma MatchMayAnswer(s: State, to: seq<int>, i: int)
    requires IsOrder(to, s.tools) && i in s.results
    ensures
      match FirstMatch(AfterTools(s, to), s.results[i].toolUseID)
      case Some(k) => MayAnswer(s, i, AfterTools(s, to)[k])
      case None => forall c :: !MayAnswer(s, i, c)
  {
    hide FirstMatch, Values, FinishedCall;
    IsOrderBounds(s.tools, to);
    var id := s.results[i].toolUseID;
    if FirstMatch(s.result.tools, id).Some? {
      FinishedStays(s.result.tools, Values(Calls(s.tools), to), id);
    } else {
      MatchAmongFlushed(s, to, id);
    }
  }

  /** If the calls in flight come to the same tool, a call that may answer does answer. */
  lemma MayAnswerDoes(s: State, to: seq<int>, i: int, c: ToolCall)
    requires !ToolsDiffer(s) && MayAnswer(s, i, c) && IsOrder(to, s.tools)
    ensures Matched(AfterTools(s, to), s.results[i]) == Some(Executed(c, s.results[i]))
  {
    hide FirstMatch, Values, FinishedCall, IsOrder;
    IsOrderBounds(s.tools, to);
    var id := s.results[i].toolUseID;
    if FirstMatch(s.result.tools, id).Some? {
      FinishedStays(s.result.tools, Values(Calls(s.tools), to), id);
    } else {
      MatchAmongFlushed(s, to, id);
    }
  }

  lemma {:induction false} SomesFirst<T>(s: seq<Option<T>>)
    requires s != [] && s[0].Some?
    ensures Somes(s) != [] && Somes(s)[0] == s[0].value
  {
    if |s| > 1 {
      SomesFirst(s[..|s| - 1]);
    } else {
      assert Somes<T>(s[..0]) == [];
    }
  }

  lemma {:induction false} SomesFrom<T>(s: seq<Option<T>>)
    ensures forall x :: x in Somes(s) ==> Some(x) in s
  {
    if s != [] {
      SomesFrom(s[..|s| - 1]);
    }
  }

  /** Different tools finished first: different lists of tools. */
  lemma ToolListsDiffer(s: State, a: int, b: int, t1: seq<int>, t2: seq<int>, ro: seq<int>)
    requires a in s.tools && b in s.tools && FinishedCall(s.tools[a]) != FinishedCall(s.tools[b])
    requires IsFlush(s, t1, ro) && IsFlush(s, t2, ro) && t1 != [] && t2 != [] && t1[0] == a && t2[0] == b
    ensures Finalized(s, t1, ro) != Finalized(s, t2, ro)
  {
    hide Finalized, Values, FinishedCall, Somes, Shown, AllMatched;
    FlushedOutput(s, t1, ro);
    FlushedOutput(s, t2, ro);
    ValuesAt(Calls(s.tools), t1);
    ValuesAt(Calls(s.tools), t2);
    var n := |s.result.tools|;
    assert AfterTools(s, t1)[n] == FinishedCall(s.tools[a]);
    assert AfterTools(s, t2)[n] == FinishedCall(s.tools[b]);
  }

  /** Different results finished first: different lists of executions. */
  lemma ExecutionListsDiffer(
      s: State, i: int, j: int, c: ToolCall, d: ToolCall, to: seq<int>, r1: seq<int>, r2: seq<int>)
    requires !ToolsDiffer(s) && ResultsDifferBy(s, i, j, c, d)
    requires IsFlush(s, to, r1) && IsFlush(s, to, r2) && r1 != [] && r2 != [] && r1[0] == i && r2[0] == j
    ensures Finalized(s, to, r1) != Finalized(s, to, r2)
  {
    hide Finalized, Values, FinishedCall, Somes, Shown, Matched, MayAnswer, FirstMatch, ToolsDiffer;
    FlushedOutput(s, to, r1);
    FlushedOutput(s, to, r2);
    MayAnswerDoes(s, to, i, c);
    MayAnswerDoes(s, to, j, d);
    var m, n := AllMatched(AfterTools(s, to), s.results), |s.result.executions|;
    ValuesAt(m, r1);
    ValuesAt(m, r2);
    SomesFirst(Values(m, r1));
    SomesFirst(Values(m, r2));
    assert Finalized(s, to, r1).executions[n] == Executed(c, s.results[i]);
    assert Finalized(s, to, r2).executions[n] == Executed(d, s.results[j]);
  }

  /** A list of one value, however often, is its multiset. */
  lemma AllSame<T>(a: seq<T>, b: seq<T>)
    requires multiset(a) == multiset(b)
    requires forall x, y :: x in a && y in a ==> x == y
    ensures a == b
  {
    assert |a| == |multiset(a)| == |multiset(b)| == |b|;
    forall k | 0 <= k < |a|
      ensures a[k] == b[k]
    {
      assert b[k] in multiset(b);
      assert b[k] in multiset(a);
      assert a[k] in a && b[k] in a;
    }
  }

  lemma SameTools(s: State, t1: seq<int>, t2: seq<int>)
    requires !ToolsDiffer(s) && IsOrder(t1, s.tools) && IsOrder(t2, s.tools)
    ensures AfterTools(s, t1) == AfterTools(s, t2)
  {
    hide Values, FinishedCall;
    var calls := Calls(s.tools);
    OrderOfMapped(s.tools, t1);
    OrderOfMapped(s.tools, t2);
    OrdersAgree(calls, t1, t2);
    ValuesAt(calls, t1);
    AllSame(Values(calls, t1), Values(calls, t2));
  }

  lemma SameExecutions(s: State, to: seq<int>, r1: seq<int>, r2: seq<int>)
    requires !ResultsDiffer(s) && IsOrder(to, s.tools) && IsOrder(r1, s.results) && IsOrder(r2, s.results)
    ensures
      var m := AllMatched(AfterTools(s, to), s.results);
      Somes(Values(m, r1)) == Somes(Values(m, r2))
  {
    hide Values, Somes, MayAnswer, FinishedCall, FirstMatch;
    var m := AllMatched(AfterTools(s, to), s.results);
    OrderOfMatched(AfterTools(s, to), s.results, r1);
    OrderOfMatched(AfterTools(s, to), s.results, r2);
    OrdersAgree(m, r1, r2);
    SomesAgree(Values(m, r1), Values(m, r2));
    SomesFrom(Values(m, r1));
    ValuesAt(m, r1);
    forall x, y | x in Somes(Values(m, r1)) && y in Somes(Values(m, r1))
      ensures x == y
    {
      var i := CameFrom(m, r1, x);
      var j := CameFrom(m, r1, y);
      MatchMayAnswer(s, to, i);
      MatchMayAnswer(s, to, j);
      var k, l := FirstMatch(AfterTools(s, to), s.results[i].toolUseID), FirstMatch(AfterTools(s, to), s.results[j].toolUseID);
      assert !ResultsDifferBy(s, i, j, AfterTools(s, to)[k.value], AfterTools(s, to)[l.value]);
    }
    AllSame(Somes(Values(m, r1)), Somes(Values(m, r2)));
  }

  lemma CameFrom<T>(m: map<int, Option<T>>, order: seq<int>, x: T) returns (i: int)
    requires (forall k :: 0 <= k < |order| ==> order[k] in m) && Some(x) in Values(m, order)
    ensures i in m && m[i] == Some(x)
  {
    ValuesAt(m, order);
    var k :| 0 <= k < |order| && Values(m, order)[k] == Some(x);
    i := order[k];
  }

  /**
   * A stream is rebuilt in one way only if and only if the tools in flight at its end all
   * come to the same tool and the results in flight that have a call all come to the same
   * execution. Otherwise the order of map iteration shows, at least in the order of the
   * lists.
   */
  lemma TurnIsUniqueIff(events: seq<Event>, failure: string)
    ensures
      var s := EndState(events, failure);
      ToolsDiffer(s) || ResultsDiffer(s) <==>
        exists r, q :: Reassembles(events, failure, r) && Reassembles(events, failure, q) && r != q
  {
    hide Finalized, EndState, IsFlush, ToolsDiffer, ResultsDiffer;
    var s := EndState(events, failure);
    if ToolsDiffer(s) {
      var t1, t2, ro := DifferingTools(s);
      var r, q := Finalized(s, t1, ro), Finalized(s, t2, ro);
      assert Reassembles(events, failure, r) && Reassembles(events, failure, q);
    } else if ResultsDiffer(s) {
      var to, r1, r2 := DifferingResults(s);
      var r, q := Finalized(s, to, r1), Finalized(s, to, r2);
      assert Reassembles(events, failure, r) && Reassembles(events, failure, q);
    } else {
      forall r, q | Reassembles(events, failure, r) && Reassembles(events, failure, q)
        ensures r == q
      {
        var t1, r1 :| IsFlush(s, t1, r1) && r == Finalized(s, t1, r1);
        var t2, r2 :| IsFlush(s, t2, r2) && q == Finalized(s, t2, r2);
        OneTurn(s, t1, r1, t2, r2);
      }
    }
  }

  lemma DifferingTools(s: State) returns (t1: seq<int>, t2: seq<int>, ro: seq<int>)
    requires ToolsDiffer(s)
    ensures IsFlush(s, t1, ro) && IsFlush(s, t2, ro) && Finalized(s, t1, ro) != Finalized(s, t2, ro)
  {
    hide Finalized, IsOrder, FinishedCall;
    var a, b :| a in s.tools && b in s.tools && FinishedCall(s.tools[a]) != FinishedCall(s.tools[b]);
    t1 := OrderFrom(s.tools, a);
    t2 := OrderFrom(s.tools, b);
    ro := SomeOrder(s.results);
    ToolListsDiffer(s, a, b, t1, t2, ro);
  }

  lemma DifferingResults(s: State) returns (to: seq<int>, r1: seq<int>, r2: seq<int>)
    requires !ToolsDiffer(s) && ResultsDiffer(s)
    ensures IsFlush(s, to, r1) && IsFlush(s, to, r2) && Finalized(s, to, r1) != Finalized(s, to, r2)
  {
    hide Finalized, IsOrder, FinishedCall, FirstMatch, ToolsDiffer;
    var i, j, c, d :| ResultsDifferBy(s, i, j, c, d);
    to := SomeOrder(s.tools);
    r1 := OrderFrom(s.results, i);
    r2 := OrderFrom(s.results, j);
    ExecutionListsDiffer(s, i, j, c, d, to, r1, r2);
  }

  lemma OneTurn(s: State, t1: seq<int>, r1: seq<int>, t2: seq<int>, r2: seq<int>)
    requires !ToolsDiffer(s) && !ResultsDiffer(s) && IsFlush(s, t1, r1) && IsFlush(s, t2, r2)
    ensures Finalized(s, t1, r1) == Finalized(s, t2, r2)
  {
    hide Finalized, IsOrder, ToolsDiffer, ResultsDiffer, Values, Somes, Shown, AllMatched, CloseText, CloseThinking;
    FlushedOutput(s, t1, r1);
    FlushedOutput(s, t2, r2);
    SameTools(s, t1, t2);
    SameExecutions(s, t1, r1, r2);
  }

  /** Two calls in flight under one id, and a result for it, when the stream breaks off. */
  const SHARED_ID := [
    BlockStart(0, ToolUseBlock("x", "a")), BlockStart(1, ToolUseBlock("x", "b")),
    BlockStart(2, ToolResultBlock("x", false))]

  /** There are such streams: this one is rebuilt in two different ways. */
  lemma SharedIdLetsOrderDecide()
    ensures exists r, s :: Reassembles(SHARED_ID, "", r) && Reassembles(SHARED_ID, "", s)
                           && multiset(r.executions) != multiset(s.executions)
  {
    hide EndState, Reassembles;
    SharedIdState();
    assert ContestedBy(EndState(SHARED_ID, ""), 2, 0, 1);
    OrderDecidesIff(SHARED_ID, "");
  }

  lemma SharedIdState()
    ensures
      var s := EndState(SHARED_ID, "");
      && s.tools == map[0 := InflightTool("a", "x", []), 1 := InflightTool("b", "x", [])]
      && s.results == map[2 := InflightResult("x", [])] && s.result.tools == [] && s.result.executions == []
  {
    hide CloseText, CloseThinking;
    HandledIs(SHARED_ID, SHARED_ID);
    var a, b, c := SHARED_ID[0], SHARED_ID[1], SHARED_ID[2];
    var none: seq<Event> := [];
    assert none + [a] == [a] && [a] + [b] == [a, b] && [a, b] + [c] == SHARED_ID;
    RunSnoc(INITIAL, none, a);
    RunSnoc(INITIAL, [a], b);
    RunSnoc(INITIAL, [a, b], c);
    NothingRun();
    var s1 := Handle(INITIAL, a);
    var s2 := Handle(s1, b);
    ClosingKeepsInflight(INITIAL);
    ClosingKeepsInflight(CloseText(INITIAL));
    ClosingKeepsInflight(s1);
    ClosingKeepsInflight(CloseText(s1));
    ClosingKeepsInflight(s2);
    ClosingKeepsInflight(CloseText(s2));
  }
}
