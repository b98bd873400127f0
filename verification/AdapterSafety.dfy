/** Indices and brackets of whole adapter runs. */
module AdapterSafety {
  import opened Octets
  import opened Protocol
  import opened Streamers
  import opened Adapter
  import opened AdapterRuns

  // ------------------------------------------------------------------- indices

  function Indices(blocks: seq<WireBlock>): (ixs: seq<nat>)
    ensures |ixs| == |blocks|
    ensures forall k :: 0 <= k < |blocks| ==> ixs[k] == blocks[k].index
  {
    seq(|blocks|, k requires 0 <= k < |blocks| => blocks[k].index)
  }

  /** No index twice, and between them exactly the indices from `lo` up to `hi`. */
  ghost predicate Covers(ixs: seq<nat>, lo: nat, hi: nat) {
    && (forall j, k :: 0 <= j < k < |ixs| ==> ixs[j] != ixs[k])
    && (forall x :: x in ixs <==> lo <= x < hi)
  }

  lemma CoversAppend(a: seq<nat>, b: seq<nat>, lo: nat, mid: nat, hi: nat)
    requires Covers(a, lo, mid) && Covers(b, mid, hi) && lo <= mid <= hi
    ensures Covers(a + b, lo, hi)
  {
    assert forall k :: 0 <= k < |a| ==> a[k] in a;
    assert forall k :: 0 <= k < |b| ==> b[k] in b;
    assert forall x :: x in a + b <==> x in a || x in b;
  }

  /** Every call of the round starts once and returns once, in any order. */
  predicate EachOnce(turn: Turn) {
    && StepsInRange(turn)
    && (forall j, k :: 0 <= j < k < |turn.steps| ==> !SameStep(turn.steps[j], turn.steps[k]))
    && (forall i: nat :: i < |turn.calls| ==> HasStart(turn.steps, i) && HasReturn(turn.steps, i))
  }

  predicate AllEachOnce(turns: seq<Turn>) {
    InRange(turns) && forall k :: 0 <= k < |turns| ==> EachOnce(turns[k])
  }

  predicate SameStep(a: ToolStep, b: ToolStep) {
    a.i == b.i && a.Start? == b.Start?
  }

  predicate HasStart(steps: seq<ToolStep>, i: nat) {
    exists k :: 0 <= k < |steps| && steps[k].Start? && steps[k].i == i
  }

  predicate HasReturn(steps: seq<ToolStep>, i: nat) {
    exists k :: 0 <= k < |steps| && steps[k].Return? && steps[k].i == i
  }

  function StepIndex(toolBase: nat, n: nat, step: ToolStep): nat {
    if step.Start? then toolBase + step.i else toolBase + n + step.i
  }

  lemma {:induction false} StepBlockIndices(toolBase: nat, calls: seq<Call>, steps: seq<ToolStep>)
    requires forall k :: 0 <= k < |steps| ==> steps[k].i < |calls|
    ensures
      var blocks := StepBlocks(toolBase, calls, steps);
      && |blocks| == |steps|
      && forall k :: 0 <= k < |steps| ==> blocks[k].index == StepIndex(toolBase, |calls|, steps[k])
  {
    if steps != [] {
      StepBlockIndices(toolBase, calls, steps[1..]);
    }
  }

  lemma StepsCover(toolBase: nat, turn: Turn)
    requires EachOnce(turn)
    ensures Covers(Indices(StepBlocks(toolBase, turn.calls, turn.steps)), toolBase, toolBase + 2 * |turn.calls|)
  {
    hide StepBlocks;
    var n, steps := |turn.calls|, turn.steps;
    var ixs := Indices(StepBlocks(toolBase, turn.calls, steps));
    StepBlockIndices(toolBase, turn.calls, steps);
    forall x | toolBase <= x < toolBase + 2 * n
      ensures x in ixs
    {
      if x < toolBase + n {
        assert HasStart(steps, x - toolBase);
        var k :| 0 <= k < |steps| && steps[k].Start? && steps[k].i == x - toolBase;
        assert ixs[k] == x;
      } else {
        assert HasReturn(steps, x - toolBase - n);
        var k :| 0 <= k < |steps| && steps[k].Return? && steps[k].i == x - toolBase - n;
        assert ixs[k] == x;
      }
    }
    forall j, k | 0 <= j < k < |ixs|
      ensures ixs[j] != ixs[k]
    {
      assert !SameStep(steps[j], steps[k]);
    }
  }

  lemma TurnCovers(base: nat, turn: Turn)
    requires EachOnce(turn)
    ensures Covers(Indices(TurnBlocks(base, turn)), base, NextBase(base, turn))
    ensures NextBase(base, turn) == ToolBase(base, turn) + 2 * |turn.calls|
  {
    hide Covers, ContentBlocks, StepBlocks;
    var content := ContentBlocks(base, turn.chunks);
    var tools := StepBlocks(ToolBase(base, turn), turn.calls, turn.steps);
    StepsCover(ToolBase(base, turn), turn);
    ContentCovers(base, turn.chunks);
    CoversAppend(Indices(content), Indices(tools), base, ToolBase(base, turn), ToolBase(base, turn) + 2 * |turn.calls|);
    assert Indices(content + tools) == Indices(content) + Indices(tools);
    if |turn.calls| > 0 {
      assert HasReturn(turn.steps, |turn.calls| - 1);
    }
  }

  lemma ContentCovers(base: nat, chunks: seq<Chunk>)
    ensures Covers(Indices(ContentBlocks(base, chunks)), base, base + |ContentBlocks(base, chunks)|)
  {
    var ixs := Indices(ContentBlocks(base, chunks));
    assert forall k :: 0 <= k < |ixs| ==> ixs[k] == base + k;
    forall x | base <= x < base + |ixs|
      ensures x in ixs
    {
      assert ixs[x - base] == x;
    }
  }

  /**
   * Over a whole request no two blocks share an index, and the indices used are exactly
   * those below the block index the adapter ends on.
   */
  lemma {:induction false} IndexBijection(base: nat, turns: seq<Turn>)
    requires AllEachOnce(turns)
    ensures base <= RunNext(base, turns)
    ensures Covers(Indices(RunBlocks(base, turns)), base, RunNext(base, turns))
    decreases turns
  {
    hide TurnBlocks, NextBase, Covers;
    if turns == [] {
      assert Covers([], base, base) by { NothingCovered(base); }
    } else {
      var next := NextBase(base, turns[0]);
      TurnCovers(base, turns[0]);
      IndexBijection(next, turns[1..]);
      CoversAppend(Indices(TurnBlocks(base, turns[0])), Indices(RunBlocks(next, turns[1..])),
                   base, next, RunNext(base, turns));
      assert Indices(RunBlocks(base, turns))
             == Indices(TurnBlocks(base, turns[0])) + Indices(RunBlocks(next, turns[1..]));
    }
  }

  lemma NothingCovered(base: nat)
    ensures Covers([], base, base)
  {
  }

  // ------------------------------------------------------------ when a round advances

  /** A round up to its `k`-th tool step. */
  function MidRound(turn: Turn, k: nat): seq<Callback>
    requires StepsInRange(turn) && k <= |turn.steps|
  {
    [RoundStart] + Deltas(turn.chunks) + [AssistantMessage(|turn.calls|)]
    + ToolCallbacks(turn.calls, turn.steps[..k])
  }

  /** The adapter's block index after `k` tool steps of a round. */
  function IndexAfter(st: State, turn: Turn, k: nat): nat
    requires StepsInRange(turn) && k <= |turn.steps|
  {
    RespondAll(st, MidRound(turn, k)).state.blockIndex
  }

  /** The block index moves on at the step that brings in the highest-index result. */
  lemma IndexMovesIff(st: State, turn: Turn, k: nat)
    requires StepsInRange(turn) && turn.calls != [] && k <= |turn.steps|
    ensures IndexAfter(st, turn, k) ==
              ToolBase(st.blockIndex, turn)
              + if HasReturn(turn.steps[..k], |turn.calls| - 1) then 2 * |turn.calls| else 0
  {
    hide ContentBlocks, StepBlocks, RespondAll, Deltas, ToolCallbacks, AllEvents;
    var head := [RoundStart] + Deltas(turn.chunks) + [AssistantMessage(|turn.calls|)];
    MessageEmission(st, turn.chunks, |turn.calls|);
    var mid := RespondAll(st, head).state;
    ToolEmission(mid, turn.calls, turn.steps[..k]);
    RespondAllAppend(st, head, ToolCallbacks(turn.calls, turn.steps[..k]));
  }

  /** A result that comes in after the highest-index one. */
  predicate ReturnsLater(turn: Turn, k: nat, m: nat) {
    k < m < |turn.steps| && turn.steps[k].Return? && turn.steps[k].i == |turn.calls| - 1 && turn.steps[m].Return?
  }

  predicate Outstanding(turn: Turn, k: nat)
    requires k <= |turn.steps|
  {
    exists i: nat :: i < |turn.calls| && !HasReturn(turn.steps[..k], i)
  }

  /**
   * The round does not wait for its last result to arrive: the block index has moved on
   * with results outstanding, at some point of a round in which every call starts and
   * returns once, if and only if some result comes in after the highest-index one.
   */
  lemma AdvancesEarlyIff(st: State, turn: Turn)
    requires EachOnce(turn) && turn.calls != []
    ensures (exists k: nat :: k <= |turn.steps| && IndexAfter(st, turn, k) != ToolBase(st.blockIndex, turn)
                              && Outstanding(turn, k))
            <==> exists k, m :: ReturnsLater(turn, k, m)
  {
    hide ToolBase, IndexAfter, Outstanding;
    var n, steps := |turn.calls|, turn.steps;
    if k: nat :| k <= |steps| && IndexAfter(st, turn, k) != ToolBase(st.blockIndex, turn) && Outstanding(turn, k) {
      IndexMovesIff(st, turn, k);
      var j := ReturnBefore(steps, k, n - 1);
      var m := ReturnAfter(turn, k);
      assert ReturnsLater(turn, j, m);
    }
    if k: nat, m: nat :| ReturnsLater(turn, k, m) {
      IndexMovesIff(st, turn, k + 1);
      AmongFirst(steps, k + 1, k);
      LaterIsOutstanding(turn, k + 1, m);
    }
  }

  /** With two calls whose results come in second one first, three steps already move the index. */
  lemma SecondResultFirst(a: Call, b: Call, x: ToolOutput, y: ToolOutput)
    ensures
      var turn := Turn([], [a, b], [Start(0), Start(1), Return(1, x), Return(0, y)]);
      EachOnce(turn) && IndexAfter(INITIAL, turn, 3) == 4 && !HasReturn(turn.steps[..3], 0)
  {
    hide RespondAll, IndexAfter;
    var turn := Turn([], [a, b], [Start(0), Start(1), Return(1, x), Return(0, y)]);
    var steps := turn.steps;
    assert steps[0] == Start(0) && steps[1] == Start(1) && steps[2] == Return(1, x) && steps[3] == Return(0, y);
    IndexMovesIff(INITIAL, turn, 3);
    assert steps[..3][2] == Return(1, x);
    assert HasReturn(steps[..3], 1);
  }

  lemma ReturnBefore(steps: seq<ToolStep>, k: nat, i: nat) returns (j: nat)
    requires k <= |steps| && HasReturn(steps[..k], i)
    ensures j < k && steps[j].Return? && steps[j].i == i
  {
    j :| 0 <= j < k && steps[..k][j].Return? && steps[..k][j].i == i;
    assert steps[..k][j] == steps[j];
  }

  lemma AmongFirst(steps: seq<ToolStep>, k: nat, m: nat)
    requires m < k <= |steps| && steps[m].Return?
    ensures HasReturn(steps[..k], steps[m].i)
  {
    assert steps[..k][m] == steps[m];
  }

  lemma OnceOnly(turn: Turn, j: nat, m: nat)
    requires EachOnce(turn) && j < m < |turn.steps|
    ensures !SameStep(turn.steps[j], turn.steps[m])
  {
  }

  lemma ReturnAfter(turn: Turn, k: nat) returns (m: nat)
    requires EachOnce(turn) && k <= |turn.steps| && Outstanding(turn, k)
    ensures k <= m < |turn.steps| && turn.steps[m].Return?
  {
    var i: nat :| i < |turn.calls| && !HasReturn(turn.steps[..k], i);
    assert HasReturn(turn.steps, i);
    m :| 0 <= m < |turn.steps| && turn.steps[m].Return? && turn.steps[m].i == i;
    if m < k {
      AmongFirst(turn.steps, k, m);
      assert false;
    }
  }

  lemma LaterIsOutstanding(turn: Turn, k: nat, m: nat)
    requires EachOnce(turn) && k <= m < |turn.steps| && turn.steps[m].Return?
    ensures Outstanding(turn, k)
  {
    var i := turn.steps[m].i;
    assert !HasReturn(turn.steps[..k], i) by {
      if HasReturn(turn.steps[..k], i) {
        var j := ReturnBefore(turn.steps, k, i);
        OnceOnly(turn, j, m);
        assert false;
      }
    }
  }

  /**
   * After the round the adapter's block index is past all tool blocks if and only if the
   * highest-index result came in, and otherwise still at the tool base.
   */
  lemma RoundAdvancesIff(st: State, turn: Turn, number: nat)
    requires StepsInRange(turn)
    ensures
      var next, toolBase := RespondAll(st, TurnCallbacks(turn, number)).state.blockIndex, ToolBase(st.blockIndex, turn);
      && (next == toolBase + 2 * |turn.calls| <==> turn.calls == [] || HasReturn(turn.steps, |turn.calls| - 1))
      && (next == toolBase || next == toolBase + 2 * |turn.calls|)
  {
    hide RespondAll, ContentBlocks, TurnCallbacks, TurnBlocks;
    TurnEmission(st, turn, number);
  }

  lemma {:induction false} StartedIn(blocks: seq<WireBlock>)
    ensures forall x :: x in Started(AllEvents(blocks)) <==> x in Indices(blocks)
  {
    hide BlockEvents, Started;
    if blocks == [] {
      NothingStarted();
    } else {
      StartedInBlock(blocks[0]);
      StartedIn(blocks[1..]);
      StartedAppend(BlockEvents(blocks[0]), AllEvents(blocks[1..]));
      assert Indices(blocks) == [blocks[0].index] + Indices(blocks[1..]);
    }
  }

  lemma NothingStarted()
    ensures Started([]) == {} && AllEvents([]) == []
  {
  }

  lemma StartedAppend(a: Trace, b: Trace)
    ensures Started(a + b) == Started(a) + Started(b)
  {
    var u := a + b;
    forall x ensures x in Started(u) <==> x in Started(a) || x in Started(b) {
      if x in Started(a) {
        var k :| 0 <= k < |a| && a[k].BlockStart? && a[k].index == x;
        assert u[k] == a[k];
      }
      if x in Started(b) {
        var k :| 0 <= k < |b| && b[k].BlockStart? && b[k].index == x;
        assert u[|a| + k] == b[k];
      }
    }
  }

  lemma StartedInBlock(b: WireBlock)
    ensures Started(BlockEvents(b)) == {b.index}
  {
    var e := BlockEvents(b);
    if b.Content? {
      PartsAreDeltas(b.kind, b.index, b.parts);
    }
    assert e[0].BlockStart? && e[0].index == b.index;
    assert forall k :: 0 < k < |e| ==> !e[k].BlockStart?;
  }

  /** The indices a round uses from its tool base on. */
  lemma ToolIndicesUsed(base: nat, turn: Turn, x: nat)
    requires StepsInRange(turn) && ToolBase(base, turn) <= x
    ensures
      var n, i := |turn.calls|, x - ToolBase(base, turn);
      x in Indices(TurnBlocks(base, turn)) <==> HasStart(turn.steps, i) || (i >= n && HasReturn(turn.steps, i - n))
  {
    hide ContentBlocks, StepBlocks;
    var toolBase, n, i, steps := ToolBase(base, turn), |turn.calls|, x - ToolBase(base, turn), turn.steps;
    var content, tools := ContentBlocks(base, turn.chunks), StepBlocks(ToolBase(base, turn), turn.calls, turn.steps);
    ContentCovers(base, turn.chunks);
    StepBlockIndices(toolBase, turn.calls, steps);
    assert Indices(content + tools) == Indices(content) + Indices(tools);
    assert x !in Indices(content);
    assert forall k :: 0 <= k < |tools| ==> Indices(tools)[k] == StepIndex(toolBase, n, steps[k]);
  }

  /**
   * Index `next + c` was used by a round if and only if its highest-index result never
   * came in and call `c` was started.
   */
  ghost predicate CollidesAt(events: Trace, turn: Turn, next: nat, c: nat) {
    next + c in Started(events)
    <==> turn.calls != [] && !HasReturn(turn.steps, |turn.calls| - 1) && HasStart(turn.steps, c)
  }

  /**
   * The content blocks of the next round start at consecutive indices, and such an index
   * was used by this round already if and only if the highest-index result never came in
   * and the call whose tool_use block has that index was started: call 0 for the first
   * content block, call 1 for the second.
   */
  lemma NextRoundCollidesIff(st: State, turn: Turn, number: nat, chunks: seq<Chunk>, calls: nat)
    requires StepsInRange(turn)
    ensures
      var one := RespondAll(st, TurnCallbacks(turn, number));
      var two := RespondAll(one.state, [RoundStart] + Deltas(chunks) + [AssistantMessage(calls)]);
      var next, count := one.state.blockIndex, |ContentBlocks(one.state.blockIndex, chunks)|;
      && (forall x :: x in Started(two.events) <==> next <= x < next + count)
      && forall c: nat :: c < count ==> CollidesAt(one.events, turn, next, c)
  {
    hide RespondAll, TurnCallbacks, TurnBlocks, Deltas, AllEvents, Started, HasStart, HasReturn;
    var one := RespondAll(st, TurnCallbacks(turn, number));
    var next := one.state.blockIndex;
    var content := ContentBlocks(next, chunks);
    assert |content| <= 2;
    hide ContentBlocks;
    RoundAdvancesIff(st, turn, number);
    TurnEmission(st, turn, number);
    MessageEmission(one.state, chunks, calls);
    StartedIn(TurnBlocks(st.blockIndex, turn));
    StartedIn(content);
    ContentCovers(next, chunks);
    forall x
      ensures x in Started(AllEvents(content)) <==> next <= x < next + |content|
    {
      assert x >= 0 ==> (x in Indices(content) <==> next <= x < next + |content|);
    }
    forall c: nat | c < |content|
      ensures CollidesAt(one.events, turn, next, c)
    {
      ToolIndicesUsed(st.blockIndex, turn, next + c);
      StepsBelow(turn);
    }
  }

  /**
   * Such a collision: a call started, its result never came in, and the next round opens
   * its text block at the index of the tool_use block.
   */
  lemma StartedCallCollides(a: Call)
    ensures
      var one := RespondAll(INITIAL, TurnCallbacks(Turn([], [a], [Start(0)]), 0));
      var two := RespondAll(one.state, [RoundStart] + Deltas([Chunk("", "x")]) + [AssistantMessage(0)]);
      0 in Started(one.events) && 0 in Started(two.events)
  {
    hide RespondAll, TurnCallbacks, Deltas, Started;
    var turn, chunks := Turn([], [a], [Start(0)]), [Chunk("", "x")];
    var one := RespondAll(INITIAL, TurnCallbacks(turn, 0));
    assert turn.steps[0] == Start(0) && HasStart(turn.steps, 0) && !HasReturn(turn.steps, 0);
    assert ContentBlocks(0, turn.chunks) == [];
    RoundAdvancesIff(INITIAL, turn, 0);
    NextRoundCollidesIff(INITIAL, turn, 0, chunks, 0);
    assert |ContentBlocks(0, chunks)| == 1;
    assert CollidesAt(one.events, turn, 0, 0);
  }

  lemma StepsBelow(turn: Turn)
    requires StepsInRange(turn)
    ensures forall i: nat :: HasStart(turn.steps, i) || HasReturn(turn.steps, i) ==> i < |turn.calls|
  {
  }

  // ------------------------------------------------------------------- brackets

  /** Content blocks hold something: at least one part, and no empty part. */
  predicate Substantial(blocks: seq<WireBlock>) {
    forall k :: 0 <= k < |blocks| && blocks[k].Content? ==> blocks[k].parts != [] && "" !in blocks[k].parts
  }

  lemma AfterEvent(t: Trace, e: Event)
    requires WellBracketed(t)
    ensures e.BlockStart? && e.index >= 0 && OpenBlock(t) == -1 && e.index !in Started(t) ==>
              WellBracketed(t + [e]) && OpenBlock(t + [e]) == e.index
    ensures e.BlockDelta? && e.index >= 0 && OpenBlock(t) == e.index ==>
              WellBracketed(t + [e]) && OpenBlock(t + [e]) == e.index
    ensures e.BlockStop? && e.index >= 0 && OpenBlock(t) == e.index ==>
              WellBracketed(t + [e]) && OpenBlock(t + [e]) == -1
    ensures Started(t + [e]) == Started(t) + if e.BlockStart? then {e.index} else {}
  {
    StartedSnoc(t, e);
    assert (t + [e])[..|t|] == t;
  }

  lemma {:induction false} AfterParts(t: Trace, kind: Kind, index: nat, parts: seq<string>)
    requires WellBracketed(t) && OpenBlock(t) == index
    ensures
      var u := t + PartDeltas(kind, index, parts);
      WellBracketed(u) && OpenBlock(u) == index && Started(u) == Started(t)
    decreases parts
  {
    hide WellBracketed, OpenBlock, Started;
    if parts == [] {
      assert t + PartDeltas(kind, index, parts) == t;
    } else {
      var e := BlockDelta(index, KindDelta(kind, parts[0]));
      AfterEvent(t, e);
      AfterParts(t + [e], kind, index, parts[1..]);
      Assoc(t, [e], PartDeltas(kind, index, parts[1..]));
    }
  }

  lemma AfterBlock(t: Trace, b: WireBlock)
    requires WellBracketed(t) && OpenBlock(t) == -1 && b.index !in Started(t)
    ensures
      var u := t + BlockEvents(b);
      WellBracketed(u) && OpenBlock(u) == -1 && Started(u) == Started(t) + {b.index}
  {
    hide WellBracketed, OpenBlock, Started;
    var events, stop := BlockEvents(b), BlockStop(b.index);
    var start := events[0];
    AfterEvent(t, start);
    var open := t + [start];
    if b.Content? {
      var deltas := PartDeltas(b.kind, b.index, b.parts);
      AfterParts(open, b.kind, b.index, b.parts);
      AfterEvent(open + deltas, stop);
      assert t + events == open + deltas + [stop];
    } else {
      AfterEvent(open, events[1]);
      AfterEvent(open + [events[1]], stop);
      assert t + events == open + [events[1]] + [stop];
    }
  }

  lemma {:induction false} AfterBlocks(t: Trace, blocks: seq<WireBlock>)
    requires WellBracketed(t) && OpenBlock(t) == -1
    requires forall j, k :: 0 <= j < k < |blocks| ==> blocks[j].index != blocks[k].index
    requires forall k :: 0 <= k < |blocks| ==> blocks[k].index !in Started(t)
    ensures
      var u := t + AllEvents(blocks);
      WellBracketed(u) && OpenBlock(u) == -1
    decreases blocks
  {
    hide WellBracketed, OpenBlock, Started, BlockEvents;
    if blocks == [] {
      assert t + AllEvents(blocks) == t;
    } else {
      AfterBlock(t, blocks[0]);
      AfterBlocks(t + BlockEvents(blocks[0]), blocks[1..]);
      Assoc(t, BlockEvents(blocks[0]), AllEvents(blocks[1..]));
    }
  }

  lemma {:induction false} PartsAreText(kind: Kind, index: nat, parts: seq<string>)
    requires "" !in parts
    ensures
      var d := PartDeltas(kind, index, parts);
      |d| == |parts| && forall k :: 0 <= k < |d| ==> d[k].BlockDelta? && !EmptyText(d[k])
  {
    if parts != [] {
      PartsAreText(kind, index, parts[1..]);
      assert parts[0] in parts;
    }
  }

  lemma BlockIsSubstantial(b: WireBlock)
    requires Substantial([b])
    ensures NoEmptyBlock(BlockEvents(b)) && BlockEvents(b)[0].BlockStart?
  {
    if b.Content? {
      assert [b][0] == b;
      PartsAreText(b.kind, b.index, b.parts);
    }
  }

  lemma {:induction false} NoEmptyBlocks(blocks: seq<WireBlock>)
    requires Substantial(blocks)
    ensures NoEmptyBlock(AllEvents(blocks))
    ensures AllEvents(blocks) != [] ==> AllEvents(blocks)[0].BlockStart?
  {
    hide BlockEvents;
    if blocks != [] {
      BlockIsSubstantial(blocks[0]);
      NoEmptyBlocks(blocks[1..]);
      var a, b := BlockEvents(blocks[0]), AllEvents(blocks[1..]);
      assert forall k :: 0 <= k < |a| ==> (a + b)[k] == a[k];
      assert forall k :: |a| <= k < |a| + |b| ==> (a + b)[k] == b[k - |a|];
    }
  }

  lemma {:induction false} PartsNonEmpty(chunks: seq<Chunk>)
    ensures "" !in ThinkingParts(chunks) && "" !in TextParts(chunks)
  {
    if chunks != [] {
      PartsNonEmpty(chunks[1..]);
    }
  }

  lemma {:induction false} StepBlocksNoContent(toolBase: nat, calls: seq<Call>, steps: seq<ToolStep>)
    requires forall k :: 0 <= k < |steps| ==> steps[k].i < |calls|
    ensures Substantial(StepBlocks(toolBase, calls, steps))
  {
    if steps != [] {
      StepBlocksNoContent(toolBase, calls, steps[1..]);
    }
  }

  lemma SubstantialAppend(a: seq<WireBlock>, b: seq<WireBlock>)
    requires Substantial(a) && Substantial(b)
    ensures Substantial(a + b)
  {
  }

  lemma {:induction false} RunBlocksSubstantial(base: nat, turns: seq<Turn>)
    requires InRange(turns)
    ensures Substantial(RunBlocks(base, turns))
    decreases turns
  {
    hide ContentBlocks, StepBlocks;
    if turns != [] {
      var turn := turns[0];
      ContentSubstantial(base, turn.chunks);
      StepBlocksNoContent(ToolBase(base, turn), turn.calls, turn.steps);
      RunBlocksSubstantial(NextBase(base, turn), turns[1..]);
      SubstantialAppend(ContentBlocks(base, turn.chunks), StepBlocks(ToolBase(base, turn), turn.calls, turn.steps));
      SubstantialAppend(TurnBlocks(base, turn), RunBlocks(NextBase(base, turn), turns[1..]));
    }
  }

  lemma ContentSubstantial(base: nat, chunks: seq<Chunk>)
    ensures Substantial(ContentBlocks(base, chunks))
  {
    PartsNonEmpty(chunks);
  }

  /**
   * Block-protocol safety. At every point of the trace of completed rounds plus a round
   * up to its assistant message, deltas and stops hit the one open block and no index
   * reopens; no text or thinking block is empty; and no block is open at the end.
   */
  lemma BlockProtocolSafety(turns: seq<Turn>, chunks: seq<Chunk>, calls: nat, seen: nat)
    requires AllEachOnce(turns)
    ensures
      var cbs := RunCallbacks(turns, 0) + ([RoundStart] + Deltas(chunks) + [AssistantMessage(calls)]);
      var events := RespondAll(INITIAL, cbs).events;
      && OpenBlock(events) == -1
      && NoEmptyBlock(events)
      && (seen <= |events| ==> WellBracketed(events[..seen]))
  {
    hide RespondAll, RunCallbacks, Deltas, ContentBlocks, RunBlocks, AllEvents, Covers, WellBracketed, NoEmptyBlock,
         Substantial;
    var message := [RoundStart] + Deltas(chunks) + [AssistantMessage(calls)];
    var done := RunBlocks(0, turns);
    RunEmission(INITIAL, turns, 0);
    var next := RunNext(0, turns);
    var st := RespondAll(INITIAL, RunCallbacks(turns, 0)).state;
    MessageEmission(st, chunks, calls);
    RespondAllAppend(INITIAL, RunCallbacks(turns, 0), message);
    var blocks := done + ContentBlocks(next, chunks);
    AllEventsAppend(done, ContentBlocks(next, chunks));
    var events := AllEvents(blocks);
    RunBlocksSubstantial(0, turns);
    ContentSubstantial(next, chunks);
    SubstantialAppend(done, ContentBlocks(next, chunks));
    NoEmptyBlocks(blocks);
    IndexBijection(0, turns);
    ContentCovers(next, chunks);
    CoversAppend(Indices(done), Indices(ContentBlocks(next, chunks)), 0, next, next + |ContentBlocks(next, chunks)|);
    assert Indices(blocks) == Indices(done) + Indices(ContentBlocks(next, chunks));
    CoversDistinct(blocks, 0, next + |ContentBlocks(next, chunks)|);
    assert WellBracketed([]) && OpenBlock([]) == -1 by { EmptyTrace(); }
    AfterBlocks([], blocks);
    assert [] + events == events;
    if seen <= |events| {
      WellBracketedPrefix(events, seen);
    }
  }

  lemma CoversDistinct(blocks: seq<WireBlock>, lo: nat, hi: nat)
    requires Covers(Indices(blocks), lo, hi)
    ensures forall j, k :: 0 <= j < k < |blocks| ==> blocks[j].index != blocks[k].index
  {
  }

  lemma EmptyTrace()
    ensures WellBracketed([]) && OpenBlock([]) == -1
  {
  }

  /** Within a round, the thinking block's stop comes before the text block's start. */
  lemma {:induction false} ThinkingStopsBeforeTextStarts(base: nat, chunks: seq<Chunk>, j: nat, k: nat)
    requires ThinkingParts(chunks) != []
    requires
      var e := AllEvents(ContentBlocks(base, chunks));
      j < |e| && k < |e| && e[j] == BlockStop(base) && e[k].BlockStart? && e[k].block == TextBlock
    ensures j < k
  {
    var thinking := ContentBlock(Thinking, base, ThinkingParts(chunks));
    var text := ContentBlock(Text, base + 1, TextParts(chunks));
    assert ContentBlocks(base, chunks) == thinking + text;
    hide AllEvents, ContentBlocks, ContentBlock, ThinkingParts, TextParts;
    AllEventsAppend(thinking, text);
    var a, b := AllEvents(thinking), AllEvents(text);
    SingleBlockEvents(Thinking, base, ThinkingParts(chunks));
    SingleBlockEvents(Text, base + 1, TextParts(chunks));
    AppendAt(a, b, j);
    AppendAt(a, b, k);
  }

  lemma AppendAt<T>(a: seq<T>, b: seq<T>, i: nat)
    requires i < |a| + |b|
    ensures (a + b)[i] == if i < |a| then a[i] else b[i - |a|]
  {
  }

  lemma SingleBlockEvents(kind: Kind, index: nat, parts: seq<string>)
    ensures
      var e := AllEvents(ContentBlock(kind, index, parts));
      forall k :: 0 <= k < |e| ==>
                    && (e[k].BlockStop? ==> e[k].index == index)
                    && (e[k].BlockStart? ==> e[k].block == KindBlock(kind))
  {
    if parts == [] {
      NoEvents();
    } else {
      var b := Content(kind, index, parts);
      PartsAreDeltas(kind, index, parts);
      assert [b][1..] == [] && AllEvents([b]) == BlockEvents(b) + AllEvents([b][1..]);
      NoEvents();
      assert AllEvents(ContentBlock(kind, index, parts)) == BlockEvents(b);
    }
  }

  lemma {:induction false} PartsAreDeltas(kind: Kind, index: nat, parts: seq<string>)
    ensures
      var d := PartDeltas(kind, index, parts);
      |d| == |parts| && forall k :: 0 <= k < |d| ==> d[k].BlockDelta?
  {
    if parts != [] {
      PartsAreDeltas(kind, index, parts[1..]);
    }
  }
}
