/**
 * Streaming callbacks to content blocks (elelemstream/roundstream.go, adapter.go): first
 * what each callback should emit, then the objects that emit it through a sink that may
 * fail.
 */
module Adapter {
  import opened Octets
  import opened Protocol
  import opened Streamers

  // ----------------------------------------------------- what should be emitted

  datatype Step<S> = Step(state: S, events: Trace)

  /** A text streamer, as far as the wire is concerned. */
  datatype Stream = Stream(kind: Kind, index: nat, started: bool)

  function WriteChunk(s: Stream, chunk: string): Step<Stream> {
    if chunk == "" then Step(s, [])
    else Step(s.(started := true), WriteEvents(s.kind, s.index, s.started, chunk))
  }

  function CloseStream(s: Stream): Step<Stream> {
    if s.started then Step(Stream(s.kind, s.index + 1, false), [BlockStop(s.index)]) else Step(s, [])
  }

  /** One round's streamers; text appears when it first has something to say. */
  datatype Round = Round(thinking: Stream, text: Option<Stream>)

  function NewRound(base: nat): Round {
    Round(Stream(Thinking, base, false), None)
  }

  function OpenText(r: Round): Step<Round> {
    if r.text.Some? then Step(r, []) else
      var closed := CloseStream(r.thinking);
      Step(Round(closed.state, Some(Stream(Text, closed.state.index, false))), closed.events)
  }

  function Reason(r: Round, reasoning: string): Step<Round> {
    if reasoning != "" && r.text.None? then
      var w := WriteChunk(r.thinking, reasoning);
      Step(r.(thinking := w.state), w.events)
    else Step(r, [])
  }

  function Say(r: Round, text: string): Step<Round> {
    if text == "" then Step(r, []) else
      var o := OpenText(r);
      var w := WriteChunk(o.state.text.value, text);
      Step(o.state.(text := Some(w.state)), o.events + w.events)
  }

  function HandleDelta(r: Round, reasoning: string, text: string): Step<Round> {
    var a := Reason(r, reasoning);
    var b := Say(a.state, text);
    Step(b.state, a.events + b.events)
  }

  function Finish(r: Round): Step<Round> {
    var o := OpenText(r);
    var c := CloseStream(o.state.text.value);
    Step(o.state.(text := Some(c.state)), o.events + c.events)
  }

  function NextBlockIndex(r: Round): nat {
    if r.text.None? then r.thinking.index else r.text.value.index
  }

  datatype ToolOutput = ToolOutput(content: string, isError: bool)

  datatype Callback =
    | RoundStart
    | Delta(reasoning: string, text: string)
    | AssistantMessage(toolCalls: nat)
    | RoundEnd(round: nat)
    | ToolCallStart(index: nat, callID: string, name: string, arguments: string)
    | ToolResult(index: nat, callID: string, result: Option<ToolOutput>)

  datatype State = State(blockIndex: nat, rounds: nat, round: Option<Round>, toolBase: nat, toolCallCount: nat)

  const INITIAL := State(0, 0, None, 0, 0)

  /** The answer to a callback; `failed` when the adapter itself refuses it. */
  datatype Response = Response(state: State, events: Trace, failed: bool)

  function Respond(st: State, cb: Callback): Response {
    match cb
    case RoundStart => Response(st.(round := Some(NewRound(st.blockIndex))), [], false)
    case Delta(reasoning, text) =>
      if st.round.None? then Response(st, [], true) else
        var s := HandleDelta(st.round.value, reasoning, text);
        Response(st.(round := Some(s.state)), s.events, false)
    case AssistantMessage(n) =>
      if st.round.None? then Response(st, [], true) else
        var s := Finish(st.round.value);
        var next := NextBlockIndex(s.state);
        Response(State(next, st.rounds, Some(s.state), next, n), s.events, false)
    case RoundEnd(k) => Response(st.(rounds := k + 1), [], false)
    case ToolCallStart(i, id, name, args) =>
      Response(st, ToolUseEvents(st.toolBase + i, id, name, args), false)
    case ToolResult(i, id, result) =>
      if result.None? then Response(st, [], true) else
        Response(if i == st.toolCallCount - 1
                 then st.(blockIndex := st.toolBase + CONTENT_BLOCKS_PER_TOOL * st.toolCallCount) else st,
                 ToolResultEvents(st.toolBase + st.toolCallCount + i, id, result.value.content, result.value.isError),
                 false)
  }

  /** A run of callbacks, up to the first one the adapter refuses. */
  function RespondAll(st: State, cbs: seq<Callback>): Response
    decreases cbs
  {
    if cbs == [] then Response(st, [], false) else
      var r := Respond(st, cbs[0]);
      if r.failed then r else
        var rest := RespondAll(r.state, cbs[1..]);
        Response(rest.state, r.events + rest.events, rest.failed)
  }

  /** A tool result was answered in full. */
  predicate Landed(st: State, cb: Callback, part: Trace) {
    cb.ToolResult? && cb.result.Some? && part == Respond(st, cb).events
  }

  /** The block index once these results have been reported, in full or not. */
  function IndexAfterResults(st: State, results: seq<Callback>, parts: seq<Trace>): nat
    requires |parts| == |results|
  {
    if exists k :: 0 <= k < |results| && Landed(st, results[k], parts[k]) && results[k].index == st.toolCallCount - 1
    then st.toolBase + CONTENT_BLOCKS_PER_TOOL * st.toolCallCount
    else st.blockIndex
  }

  /** A result's block and whether it landed do not depend on the block index so far. */
  lemma ResultAnswered(st: State, blockIndex: nat, cb: Callback, before: Trace, after: Trace, ok: bool)
    requires cb.ToolResult?
    requires
      var r := Respond(st.(blockIndex := blockIndex), cb);
      Delivers(before, after, r.events, ok || r.failed) && (ok ==> !r.failed)
    ensures
      var part := after[|before|..];
      after == before + part && part <= Respond(st, cb).events && (ok <==> Landed(st, cb, part))
    ensures ok ==> Respond(st.(blockIndex := blockIndex), cb).state ==
                   st.(blockIndex := if cb.index == st.toolCallCount - 1
                                     then st.toolBase + CONTENT_BLOCKS_PER_TOOL * st.toolCallCount else blockIndex)
  {
    assert cb.result.Some? ==> |Respond(st, cb).events| == 3;
  }

  lemma NoResults(st: State)
    ensures Concat<Event>([]) == [] && IndexAfterResults(st, [], []) == st.blockIndex
  {
  }

  lemma OneMoreResult(st: State, results: seq<Callback>, parts: seq<Trace>, cb: Callback, part: Trace)
    requires |parts| == |results| && cb.ToolResult?
    ensures IndexAfterResults(st, results + [cb], parts + [part]) ==
              if Landed(st, cb, part) && cb.index == st.toolCallCount - 1
              then st.toolBase + CONTENT_BLOCKS_PER_TOOL * st.toolCallCount
              else IndexAfterResults(st, results, parts)
  {
    hide Landed;
    var n, cbs, ps := |results|, results + [cb], parts + [part];
    assert cbs[n] == cb && ps[n] == part;
    assert forall k :: 0 <= k < n ==> cbs[k] == results[k] && ps[k] == parts[k];
  }

  // ------------------------------------------------------------- the two objects

  lemma DeliversVia(before: Trace, after: Trace, mine: Trace, mine': Trace, events: Trace, ok: bool)
    requires Delivers(mine, mine', events, ok) && after == before + mine'[|mine|..]
    ensures Delivers(before, after, events, ok)
  {
  }

  class RoundStream {
    const publisher: Publisher
    const thinking: TextStreamer
    var text: TextStreamer?

    constructor (publisher: Publisher, base: nat)
      ensures Valid() && fresh(thinking) && text == null && this.publisher == publisher
      ensures View() == NewRound(base)
    {
      this.publisher := publisher;
      thinking := new TextStreamer(publisher, Thinking, base);
      text := null;
    }

    ghost predicate Valid()
      reads this, thinking, text
    {
      && thinking.Valid() && thinking.publisher == publisher && thinking.kind == Thinking
      && (text != null ==>
            text != thinking && text.Valid() && text.publisher == publisher && text.kind == Text)
    }

    ghost function View(): Round
      reads this, thinking, text
    {
      Round(Stream(Thinking, thinking.blockIndex, thinking.blockStarted),
            if text == null then None else Some(Stream(Text, text.blockIndex, text.blockStarted)))
    }

    method EnsureText() returns (ok: bool)
      requires Valid()
      modifies this, thinking, publisher.sink
      ensures Valid() && (text == old(text) || fresh(text))
      ensures ok ==> text != null && View() == OpenText(old(View())).state
      ensures Delivers(old(publisher.sink.delivered), publisher.sink.delivered, OpenText(old(View())).events, ok)
    {
      hide Accounts;
      if text != null {
        return true;
      }
      ok := thinking.Close();
      DeliversVia(old(publisher.sink.delivered), publisher.sink.delivered, old(thinking.trace), thinking.trace,
                  OpenText(old(View())).events, ok);
      if !ok {
        return;
      }
      text := new TextStreamer(publisher, Text, thinking.blockIndex);
    }

    method WriteReasoning(reasoning: string) returns (ok: bool)
      requires Valid()
      modifies thinking, publisher.sink
      ensures Valid() && text == old(text)
      ensures ok ==> View() == Reason(old(View()), reasoning).state
      ensures Delivers(old(publisher.sink.delivered), publisher.sink.delivered,
                       Reason(old(View()), reasoning).events, ok)
    {
      hide Accounts, WriteEvents;
      if reasoning != "" && text == null {
        ok := thinking.Write(reasoning);
        DeliversVia(old(publisher.sink.delivered), publisher.sink.delivered, old(thinking.trace), thinking.trace,
                    Reason(old(View()), reasoning).events, ok);
      } else {
        ok := true;
      }
    }

    method WriteText(chunk: string) returns (ok: bool)
      requires Valid()
      modifies this, thinking, text, publisher.sink
      ensures Valid() && (text == old(text) || fresh(text))
      ensures ok ==> View() == Say(old(View()), chunk).state
      ensures Delivers(old(publisher.sink.delivered), publisher.sink.delivered, Say(old(View()), chunk).events, ok)
    {
      hide Accounts, WriteEvents;
      if chunk == "" {
        return true;
      }
      ghost var opening := OpenText(View());
      ghost var writing := WriteChunk(opening.state.text.value, chunk);
      ok := EnsureText();
      ghost var mid := publisher.sink.delivered;
      if !ok {
        DeliversShort(old(publisher.sink.delivered), mid, opening.events, writing.events);
        return;
      }
      ghost var mine := text.trace;
      ok := text.Write(chunk);
      DeliversVia(mid, publisher.sink.delivered, mine, text.trace, writing.events, ok);
      DeliversThen(old(publisher.sink.delivered), mid, publisher.sink.delivered, opening.events, writing.events, ok);
    }

    method OnDelta(reasoning: string, chunk: string) returns (ok: bool)
      requires Valid()
      modifies this, thinking, text, publisher.sink
      ensures Valid() && (text == old(text) || fresh(text))
      ensures ok ==> View() == HandleDelta(old(View()), reasoning, chunk).state
      ensures Delivers(old(publisher.sink.delivered), publisher.sink.delivered,
                       HandleDelta(old(View()), reasoning, chunk).events, ok)
    {
      hide Accounts, Reason, Say;
      ghost var a := Reason(View(), reasoning);
      ghost var b := Say(a.state, chunk);
      ok := WriteReasoning(reasoning);
      ghost var mid := publisher.sink.delivered;
      if !ok {
        DeliversShort(old(publisher.sink.delivered), mid, a.events, b.events);
        return;
      }
      ok := WriteText(chunk);
      DeliversThen(old(publisher.sink.delivered), mid, publisher.sink.delivered, a.events, b.events, ok);
    }

    method Complete() returns (ok: bool)
      requires Valid()
      modifies this, thinking, text, publisher.sink
      ensures Valid() && (text == old(text) || fresh(text))
      ensures ok ==> View() == Finish(old(View())).state
      ensures Delivers(old(publisher.sink.delivered), publisher.sink.delivered, Finish(old(View())).events, ok)
    {
      hide Accounts;
      ghost var opening := OpenText(View());
      ghost var closing := CloseStream(opening.state.text.value);
      ok := EnsureText();
      ghost var mid := publisher.sink.delivered;
      if !ok {
        DeliversShort(old(publisher.sink.delivered), mid, opening.events, closing.events);
        return;
      }
      ghost var mine := text.trace;
      ok := text.Close();
      DeliversVia(mid, publisher.sink.delivered, mine, text.trace, closing.events, ok);
      DeliversThen(old(publisher.sink.delivered), mid, publisher.sink.delivered, opening.events, closing.events, ok);
    }

    method NextIndex() returns (i: nat)
      requires Valid()
      ensures i == NextBlockIndex(View())
      ensures i == if text == null then thinking.blockIndex else text.blockIndex
    {
      if text == null {
        return thinking.blockIndex;
      }
      return text.blockIndex;
    }
  }

  class Adapter {
    const publisher: Publisher
    var blockIndex: nat
    var rounds: nat
    var roundStream: RoundStream?
    var toolBase: nat
    var toolCallCount: nat

    ghost var Repr: set<object>

    constructor (publisher: Publisher)
      ensures Valid() && fresh(Repr) && View() == INITIAL && this.publisher == publisher
    {
      this.publisher := publisher;
      blockIndex, rounds, roundStream, toolBase, toolCallCount := 0, 0, null, 0, 0;
      Repr := {this};
    }

    ghost predicate Valid()
      reads this, Repr
      ensures Valid() ==> this in Repr
    {
      && this in Repr && publisher.sink !in Repr
      && (roundStream != null ==>
            && roundStream in Repr && roundStream.thinking in Repr
            && (roundStream.text != null ==> roundStream.text in Repr)
            && roundStream.publisher == publisher && roundStream.Valid())
    }

    ghost function View(): State
      requires Valid()
      reads this, Repr
    {
      State(blockIndex, rounds, if roundStream == null then None else Some(roundStream.View()), toolBase, toolCallCount)
    }

    /**
     * A callback was answered as it should be, or the sink failed part of the way. Then no
     * index and no count has moved, and a tool callback has changed nothing at all.
     */
    twostate predicate Answered(cb: Callback, ok: bool)
      requires old(Valid()) && Valid()
      reads this, Repr, publisher.sink
    {
      var r := Respond(old(View()), cb);
      && Delivers(old(publisher.sink.delivered), publisher.sink.delivered, r.events, ok || r.failed)
      && (ok ==> !r.failed && View() == r.state)
      && (!ok ==> View() == old(View()).(round := View().round))
      && (!ok && (cb.ToolCallStart? || cb.ToolResult?) ==> View() == old(View()))
    }

    method OnRoundStart() returns (ok: bool)
      requires Valid()
      modifies Repr
      ensures Valid() && fresh(Repr - old(Repr)) && Answered(RoundStart, ok) && ok
    {
      roundStream := new RoundStream(publisher, blockIndex);
      Repr := Repr + {roundStream, roundStream.thinking};
      ok := true;
    }

    method OnDelta(reasoning: string, text: string) returns (ok: bool)
      requires Valid()
      modifies Repr, publisher.sink
      ensures Valid() && fresh(Repr - old(Repr)) && Answered(Delta(reasoning, text), ok)
      ensures old(roundStream) == null ==> !ok && publisher.sink.delivered == old(publisher.sink.delivered)
    {
      hide HandleDelta, RoundStream.Valid, RoundStream.View;
      if roundStream == null {
        return false;
      }
      ok := roundStream.OnDelta(reasoning, text);
      Repr := Repr + if roundStream.text == null then {} else {roundStream.text};
    }

    method OnAssistantMessage(toolCalls: nat) returns (ok: bool)
      requires Valid()
      modifies Repr, publisher.sink
      ensures Valid() && fresh(Repr - old(Repr)) && Answered(AssistantMessage(toolCalls), ok)
      ensures old(roundStream) == null ==> !ok && publisher.sink.delivered == old(publisher.sink.delivered)
    {
      hide Finish, RoundStream.Valid, RoundStream.View, NextBlockIndex;
      if roundStream == null {
        return false;
      }
      ok := roundStream.Complete();
      Repr := Repr + if roundStream.text == null then {} else {roundStream.text};
      if !ok {
        return;
      }
      blockIndex := roundStream.NextIndex();
      toolBase := blockIndex;
      toolCallCount := toolCalls;
    }

    method OnRoundEnd(round: nat) returns (ok: bool)
      requires Valid()
      modifies this`rounds
      ensures Valid() && Answered(RoundEnd(round), ok) && ok
    {
      rounds := round + 1;
      ok := true;
    }

    method OnToolCallStart(index: nat, callID: string, name: string, arguments: string) returns (ok: bool)
      requires Valid()
      modifies publisher.sink
      ensures Valid() && Answered(ToolCallStart(index, callID, name, arguments), ok)
      ensures
        var at := old(toolBase) + index;
        Delivers(old(publisher.sink.delivered), publisher.sink.delivered,
                 [BlockStart(at, ToolUseBlock(callID, name)), BlockDelta(at, InputDelta(arguments)), BlockStop(at)], ok)
    {
      hide RoundStream.Valid, RoundStream.View, ToolUseEvents;
      ok := publisher.SendToolUseBlock(toolBase + index, callID, name, arguments);
    }

    method OnToolResult(index: nat, callID: string, result: Option<ToolOutput>) returns (ok: bool)
      requires Valid()
      modifies this`blockIndex, publisher.sink
      ensures Valid() && Answered(ToolResult(index, callID, result), ok)
      ensures result.None? ==> !ok && publisher.sink.delivered == old(publisher.sink.delivered)
      ensures result.Some? ==>
                var at, o := old(toolBase) + old(toolCallCount) + index, result.value;
                Delivers(old(publisher.sink.delivered), publisher.sink.delivered,
                         [BlockStart(at, ToolResultBlock(callID, o.isError)), BlockDelta(at, ResultDelta(o.content)),
                          BlockStop(at)], ok)
      ensures blockIndex == if ok && index == old(toolCallCount) - 1
                            then old(toolBase) + 2 * old(toolCallCount) else old(blockIndex)
    {
      hide RoundStream.Valid, RoundStream.View, ToolResultEvents;
      if result.None? {
        return false;
      }
      ok := publisher.SendToolResultBlock(
        toolBase + toolCallCount + index, callID, result.value.content, result.value.isError);
      if !ok {
        return;
      }
      if index == toolCallCount - 1 {
        blockIndex := toolBase + CONTENT_BLOCKS_PER_TOOL * toolCallCount;
      }
    }

    /** The binding of callbacks to methods. */
    method Handle(cb: Callback) returns (ok: bool)
      requires Valid()
      modifies Repr, publisher.sink
      ensures Valid() && fresh(Repr - old(Repr)) && Answered(cb, ok)
    {
      hide Respond;
      match cb {
        case RoundStart => ok := OnRoundStart();
        case Delta(reasoning, text) => ok := OnDelta(reasoning, text);
        case AssistantMessage(n) => ok := OnAssistantMessage(n);
        case RoundEnd(round) => ok := OnRoundEnd(round);
        case ToolCallStart(i, id, name, args) => ok := OnToolCallStart(i, id, name, args);
        case ToolResult(i, id, result) => ok := OnToolResult(i, id, result);
      }
    }

    /**
     * The results of a round, all of them reported whatever becomes of each, as the engine
     * does. Call by call the wire gets a first part of that result's own block, all of it
     * exactly when it landed; and the block index moves on exactly when the result with
     * the highest index landed.
     */
    method ReturnAll(results: seq<Callback>) returns (ok: bool, ghost parts: seq<Trace>)
      requires Valid() && forall k :: 0 <= k < |results| ==> results[k].ToolResult?
      modifies Repr, publisher.sink
      ensures Valid() && |parts| == |results|
      ensures publisher.sink.delivered == old(publisher.sink.delivered) + Concat(parts)
      ensures forall k :: 0 <= k < |results| ==> parts[k] <= Respond(old(View()), results[k]).events
      ensures ok <==> forall k :: 0 <= k < |results| ==> Landed(old(View()), results[k], parts[k])
      ensures View() == old(View()).(blockIndex := IndexAfterResults(old(View()), results, parts))
    {
      hide Respond, Landed, IndexAfterResults, Concat, RoundStream.Valid, RoundStream.View;
      ghost var st := View();
      ok, parts := true, [];
      assert Concat<Event>([]) == [] && IndexAfterResults(st, [], []) == st.blockIndex by { NoResults(st); }
      assert publisher.sink.delivered + [] == publisher.sink.delivered;
      for i := 0 to |results|
        invariant Valid() && Repr == old(Repr) && |parts| == i
        invariant publisher.sink.delivered == old(publisher.sink.delivered) + Concat(parts)
        invariant forall k :: 0 <= k < i ==> parts[k] <= Respond(st, results[k]).events
        invariant ok <==> forall k :: 0 <= k < i ==> Landed(st, results[k], parts[k])
        invariant View() == st.(blockIndex := IndexAfterResults(st, results[..i], parts))
      {
        var cb := results[i];
        ghost var before, blockIndex := publisher.sink.delivered, View().blockIndex;
        var landed := OnToolResult(cb.index, cb.callID, cb.result);
        ghost var part := publisher.sink.delivered[|before|..];
        ResultAnswered(st, blockIndex, cb, before, publisher.sink.delivered, landed);
        OneMoreResult(st, results[..i], parts, cb, part);
        ConcatSnoc(parts, part);
        Assoc(old(publisher.sink.delivered), Concat(parts), part);
        assert results[..i + 1] == results[..i] + [cb];
        ok := ok && landed;
        parts := parts + [part];
      }
      assert results[..|results|] == results;
    }

    /**
     * A run stopped at its first error. Whatever the sink refused, the wire holds a
     * prefix of what the failure-free run emits, and all of it exactly when no error came.
     */
    method Drive(cbs: seq<Callback>) returns (ok: bool)
      requires Valid()
      modifies Repr, publisher.sink
      ensures Valid() && fresh(Repr - old(Repr))
      ensures
        var run := RespondAll(old(View()), cbs);
        && old(publisher.sink.delivered) <= publisher.sink.delivered
        && publisher.sink.delivered <= old(publisher.sink.delivered) + run.events
        && (ok ==> !run.failed && View() == run.state)
        && (ok ==> publisher.sink.delivered == old(publisher.sink.delivered) + run.events)
        && (!ok && !run.failed ==> publisher.sink.delivered != old(publisher.sink.delivered) + run.events)
    {
      hide Respond;
      ok := true;
      ghost var start, all := publisher.sink.delivered, RespondAll(View(), cbs);
      ghost var sent: Trace := [];
      assert start + sent == start;
      for i := 0 to |cbs|
        invariant Valid() && fresh(Repr - old(Repr)) && ok
        invariant publisher.sink.delivered == start + sent
        invariant
          var rest := RespondAll(View(), cbs[i..]);
          all == Response(rest.state, sent + rest.events, rest.failed)
      {
        ghost var here := cbs[i..];
        assert here[0] == cbs[i] && here[1..] == cbs[i + 1..];
        ghost var step := Respond(View(), cbs[i]);
        ghost var later := RespondAll(step.state, cbs[i + 1..]).events;
        ok := Handle(cbs[i]);
        if !ok {
          PrefixOfAll(start, sent, step.events, if step.failed then [] else later, publisher.sink.delivered);
          assert sent + step.events + [] == sent + step.events;
          return;
        }
        Assoc(sent, step.events, later);
        Assoc(start, sent, step.events);
        sent := sent + step.events;
      }
      assert cbs[|cbs|..] == [] && sent + [] == sent;
    }
  }

  lemma PrefixOfAll(start: Trace, sent: Trace, step: Trace, later: Trace, now: Trace)
    requires start + sent <= now <= start + sent + step
    ensures start <= now <= start + (sent + step + later)
    ensures |now| < |start + sent + step| ==> now != start + (sent + step + later)
  {
  }
}
