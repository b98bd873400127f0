/**
 * The block protocol (types.go) and the emitting side's two lowest layers: a sink that
 * may fail and the publisher that stops at the first failure (publisher.go).
 */
module Protocol {

  /** A content block as its start event describes it. */
  datatype Block =
    | TextBlock
    | ThinkingBlock
    | ToolUseBlock(id: string, name: string)
    | ToolResultBlock(toolUseID: string, isError: bool)
    | UnknownBlock

  datatype Delta =
    | TextDelta(text: string)
    | ThinkingDelta(text: string)
    | InputDelta(json: string)
    | ResultDelta(text: string)
    | UnknownDelta

  /**
   * One protocol event with its payload already decoded. `Undecodable` stands for a
   * payload that does not decode as its event type needs, and for event types that
   * carry nothing for a reader.
   */
  datatype Event =
    | MessageStart(streamID: string)
    | Ping
    | BlockStart(index: int, block: Block)
    | BlockDelta(index: int, delta: Delta)
    | BlockStop(index: int)
    | MessageDelta(stopReason: string, outputTokens: int)
    | MessageStop
    | Undecodable

  type Trace = seq<Event>

  // --------------------------------------------------------------- well-formed traces

  /** The block a trace leaves open, by index; -1 when none is open. */
  function OpenBlock(t: Trace): int {
    if t == [] then -1 else
      match t[|t| - 1]
      case BlockStart(i, _) => i
      case BlockStop(_) => -1
      case _ => OpenBlock(t[..|t| - 1])
  }

  /** Each delta and each stop hits the one open block, and no index is opened twice. */
  predicate WellBracketed(t: Trace) {
    t == [] ||
    var before, last := t[..|t| - 1], t[|t| - 1];
    && WellBracketed(before)
    && (last.BlockStart? ==> last.index >= 0 && OpenBlock(before) == -1 && last.index !in Started(before))
    && (last.BlockDelta? || last.BlockStop? ==> last.index >= 0 && OpenBlock(before) == last.index)
  }

  function Started(t: Trace): set<int> {
    set k | 0 <= k < |t| && t[k].BlockStart? :: t[k].index
  }

  lemma StartedSnoc(t: Trace, e: Event)
    ensures Started(t + [e]) == Started(t) + if e.BlockStart? then {e.index} else {}
  {
    var u := t + [e];
    assert forall k :: 0 <= k < |t| ==> u[k] == t[k];
    assert u[|t|] == e;
    forall i | i in Started(t) + if e.BlockStart? then {e.index} else {} ensures i in Started(u) {
      if i in Started(t) {
        var k :| 0 <= k < |t| && t[k].BlockStart? && t[k].index == i;
        assert u[k].index == i;
      } else {
        assert u[|t|].index == i;
      }
    }
  }

  function Stops(t: Trace): nat {
    if t == [] then 0 else Stops(t[..|t| - 1]) + if t[|t| - 1].BlockStop? then 1 else 0
  }

  predicate EmptyText(e: Event) {
    e.BlockDelta? && (e.delta == TextDelta("") || e.delta == ThinkingDelta(""))
  }

  /** No text or thinking delta is empty, and no block stops right after its start. */
  predicate NoEmptyBlock(t: Trace) {
    && (forall k :: 0 <= k < |t| ==> !EmptyText(t[k]))
    && (forall k :: 0 < k < |t| && t[k].BlockStop? ==> !t[k - 1].BlockStart?)
  }

  /** What an observer of the wire has seen at any earlier point is well bracketed too. */
  lemma {:induction false} WellBracketedPrefix(t: Trace, k: nat)
    requires k <= |t| && WellBracketed(t)
    ensures WellBracketed(t[..k])
    decreases |t|
  {
    if k == |t| {
      assert t[..k] == t;
    } else {
      WellBracketedPrefix(t[..|t| - 1], k);
      assert t[..|t| - 1][..k] == t[..k];
    }
  }

  // --------------------------------------------------------------------- delivery

  /**
   * A call meant to emit `intended` left `after` on the wire: some first part of it,
   * and all of it exactly when the call reports success.
   */
  predicate Delivers(before: Trace, after: Trace, intended: Trace, ok: bool) {
    && before <= after <= before + intended
    && (ok <==> |after| == |before| + |intended|)
  }

  lemma DeliversThen(a: Trace, b: Trace, c: Trace, x: Trace, y: Trace, ok: bool)
    requires Delivers(a, b, x, true) && Delivers(b, c, y, ok)
    ensures Delivers(a, c, x + y, ok)
  {
  }

  lemma DeliversShort(a: Trace, b: Trace, x: Trace, y: Trace)
    requires Delivers(a, b, x, false)
    ensures Delivers(a, b, x + y, false)
  {
  }

  /** A sink and its failures: `fails(n)` says whether the n-th emission is refused. */
  class Sink {
    const fails: nat -> bool
    var attempts: nat
    var delivered: Trace

    constructor (fails: nat -> bool)
      ensures delivered == [] && this.fails == fails
    {
      this.fails, attempts, delivered := fails, 0, [];
    }

    method Emit(ev: Event) returns (ok: bool)
      modifies this
      ensures Delivers(old(delivered), delivered, [ev], ok)
      ensures ok <==> !fails(old(attempts))
      ensures attempts == old(attempts) + 1
    {
      ok := !fails(attempts);
      attempts := attempts + 1;
      if ok {
        delivered := delivered + [ev];
      }
    }
  }

  // ---------------------------------------------------------------------- publisher

  const CONTENT_BLOCKS_PER_TOOL := 2
  const EMPTY_TOOL_INPUT := "{}"

  function PreambleEvents(streamID: string): Trace {
    [MessageStart(streamID), Ping]
  }

  function EpilogueEvents(stopReason: string, outputTokens: int): Trace {
    [MessageDelta(stopReason, outputTokens), MessageStop]
  }

  function ToolUseEvents(index: int, id: string, name: string, inputJSON: string): Trace {
    [BlockStart(index, ToolUseBlock(id, name)), BlockDelta(index, InputDelta(inputJSON)), BlockStop(index)]
  }

  function ToolResultEvents(index: int, id: string, text: string, isError: bool): Trace {
    [BlockStart(index, ToolResultBlock(id, isError)), BlockDelta(index, ResultDelta(text)), BlockStop(index)]
  }

  class Publisher {
    const sink: Sink

    constructor (sink: Sink)
      ensures this.sink == sink
    {
      this.sink := sink;
    }

    method Publish(ev: Event) returns (ok: bool)
      modifies sink
      ensures Delivers(old(sink.delivered), sink.delivered, [ev], ok)
    {
      ok := sink.Emit(ev);
    }

    method SendStreamPreamble(streamID: string) returns (ok: bool)
      modifies sink
      ensures Delivers(old(sink.delivered), sink.delivered, PreambleEvents(streamID), ok)
      ensures Delivers(old(sink.delivered), sink.delivered, [MessageStart(streamID), Ping], ok)
    {
      ok := Publish(MessageStart(streamID));
      if !ok {
        return;
      }
      ok := Publish(Ping);
    }

    method SendStreamEpilogue(stopReason: string, outputTokens: int) returns (ok: bool)
      modifies sink
      ensures Delivers(old(sink.delivered), sink.delivered, EpilogueEvents(stopReason, outputTokens), ok)
      ensures Delivers(old(sink.delivered), sink.delivered, [MessageDelta(stopReason, outputTokens), MessageStop], ok)
    {
      ok := Publish(MessageDelta(stopReason, outputTokens));
      if !ok {
        return;
      }
      ok := Publish(MessageStop);
    }

    method SendToolUseBlock(index: int, id: string, name: string, inputJSON: string) returns (ok: bool)
      modifies sink
      ensures Delivers(old(sink.delivered), sink.delivered, ToolUseEvents(index, id, name, inputJSON), ok)
      ensures Delivers(old(sink.delivered), sink.delivered,
                       [BlockStart(index, ToolUseBlock(id, name)), BlockDelta(index, InputDelta(inputJSON)),
                        BlockStop(index)], ok)
    {
      ok := Publish(BlockStart(index, ToolUseBlock(id, name)));
      if !ok {
        return;
      }
      ok := Publish(BlockDelta(index, InputDelta(inputJSON)));
      if !ok {
        return;
      }
      ok := Publish(BlockStop(index));
    }

    method SendToolResultBlock(index: int, id: string, text: string, isError: bool) returns (ok: bool)
      modifies sink
      ensures Delivers(old(sink.delivered), sink.delivered, ToolResultEvents(index, id, text, isError), ok)
      ensures Delivers(old(sink.delivered), sink.delivered,
                       [BlockStart(index, ToolResultBlock(id, isError)), BlockDelta(index, ResultDelta(text)),
                        BlockStop(index)], ok)
    {
      ok := Publish(BlockStart(index, ToolResultBlock(id, isError)));
      if !ok {
        return;
      }
      ok := Publish(BlockDelta(index, ResultDelta(text)));
      if !ok {
        return;
      }
      ok := Publish(BlockStop(index));
    }
  }
}
