/**
 * The whole path: an adapter run through a sink that may fail, over an SSE connection
 * that may be cut, into a reassembler.
 */
module EndToEnd {
  import opened Octets
  import opened Protocol
  import Adapter
  import opened AdapterRuns
  import opened RoundTrip
  import opened CutRuns
  import Reassembler
  import ReassemblyLaws
  import Codec
  import EventStream
  import PrintParse
  import Resume
  import SseSource

  /** The intended turn is a possible result of the whole request's events. */
  lemma IntendedReassembles(streamID: string, turns: seq<Turn>, stopReason: string, outputTokens: int)
    requires Orderly(turns) && DistinctCalls(AllCalls(turns))
    ensures Reassembler.Reassembles(Emitted(streamID, turns, stopReason, outputTokens), "", Intended(streamID, turns))
  {
    hide Emitted, Reassembler.EndState, Reassembler.Finalized, DistinctCalls, Intended, Quiescent, Adds, RunYield,
         AllCalls;
    var events := Emitted(streamID, turns, stopReason, outputTokens);
    EndOfRun(streamID, turns, stopReason, outputTokens, "");
    var s := Reassembler.EndState(events, "");
    assert Reassembler.IsFlush(s, [], []) by { NothingInFlight(s); }
    var r := Reassembler.Finalized(s, [], []);
    assert Reassembler.Reassembles(events, "", r);
    EmitReassembleRoundTrip(streamID, turns, stopReason, outputTokens, "", r);
  }

  lemma NothingInFlight(s: Reassembler.State)
    requires Quiescent(s)
    ensures Reassembler.IsFlush(s, [], [])
  {
  }

  /**
   * What is rebuilt from a first part of the events of a turn, read up to an error or,
   * with an empty text, a clean end: text, reasoning and tool names are first parts
   * always; tools, executions and timeline as `CutOf` says; and the error is the reader's
   * unless the turn was complete.
   */
  predicate FirstPartOf(part: Trace, full: Trace, failure: string, r: Reassembler.Parsed, s: Reassembler.Parsed) {
    && part <= full
    && r.text <= s.text && r.thinking <= s.thinking && r.toolNames <= s.toolNames
    && CutOf(r, s, CutsInput(part, full), CutsOutput(part, full))
    && r.streamID == (if part == [] then "" else s.streamID)
    && r.error == (if part == full then "" else failure)
  }

  /** What a client that got a first part of a request's events rebuilds. */
  lemma RebuiltFromPart(
      streamID: string, turns: seq<Turn>, stopReason: string, outputTokens: int, part: Trace, failure: string,
      r: Reassembler.Parsed)
    requires Orderly(turns) && DistinctCalls(AllCalls(turns))
    requires part <= Emitted(streamID, turns, stopReason, outputTokens)
    requires Reassembler.Reassembles(part, failure, r)
    ensures FirstPartOf(part, Emitted(streamID, turns, stopReason, outputTokens), failure, r, Intended(streamID, turns))
    ensures part == Emitted(streamID, turns, stopReason, outputTokens) ==> r == Intended(streamID, turns)
  {
    hide Emitted, RunYield, NamesOf, Reassembler.Reassembles, DistinctCalls, CutOf;
    CutRunsLose(streamID, turns, stopReason, outputTokens, part, failure, r);
    var full := Emitted(streamID, turns, stopReason, outputTokens);
    IntendedReassembles(streamID, turns, stopReason, outputTokens);
    ReassemblyLaws.TruncationGivesPrefix(part, full, failure, "", r, Intended(streamID, turns));
    HeaderOfPart(streamID, turns, stopReason, outputTokens, part, failure, r);
    if part == full {
      EmitReassembleRoundTrip(streamID, turns, stopReason, outputTokens, failure, r);
    }
  }

  lemma {:induction false} FirstAnnounced(es: Trace, id: string)
    requires es != [] && es[0] == MessageStart(id)
    requires forall k :: 0 < k < |es| ==> !es[k].MessageStart?
    ensures ReassemblyLaws.StreamIDOf(es) == id
  {
    if |es| > 1 {
      FirstAnnounced(es[..|es| - 1], id);
    }
  }

  lemma HeaderOfPart(
      streamID: string, turns: seq<Turn>, stopReason: string, outputTokens: int, part: Trace, failure: string,
      r: Reassembler.Parsed)
    requires Orderly(turns)
    requires part <= Emitted(streamID, turns, stopReason, outputTokens)
    requires Reassembler.Reassembles(part, failure, r)
    ensures r.streamID == if part == [] then "" else streamID
    ensures r.error == if part == Emitted(streamID, turns, stopReason, outputTokens) then "" else failure
  {
    hide Adapter.RespondAll, RunCallbacks, AllEvents, RunBlocks, Reassembler.Reassembles, ReassemblyLaws.StreamIDOf;
    var full, blocks := Emitted(streamID, turns, stopReason, outputTokens), RunBlocks(0, turns);
    var body := AllEvents(blocks);
    RunEmission(Adapter.INITIAL, turns, 0);
    OnlyBlockEvents(blocks);
    assert full == PreambleEvents(streamID) + body + EpilogueEvents(stopReason, outputTokens);
    assert full[|full| - 1] == MessageStop;
    forall k | 0 < k < |full|
      ensures !full[k].MessageStart?
    {
      if 2 <= k < 2 + |body| {
        assert full[k] == body[k - 2];
        assert body[k - 2] in body;
      }
    }
    ReassemblyLaws.HeaderIsKept(part, failure, r);
    var h := Reassembler.Handled(part);
    assert full[0] == MessageStart(streamID);
    if part == [] {
      NothingAnnounced();
    } else {
      assert h != [] by {
        assert part[0] == full[0];
      }
      FirstAnnounced(h, streamID);
    }
    if part != full {
      StopIsLast(streamID, turns, stopReason, outputTokens, part);
    }
  }

  lemma NothingAnnounced()
    ensures ReassemblyLaws.StreamIDOf([]) == ""
  {
  }

  lemma DrivenPart(before: Trace, after: Trace, intended: Trace, ok: bool)
    requires before <= after <= before + intended && (ok <==> after == before + intended)
    ensures Delivers(before, after, intended, ok)
  {
  }

  /** What has come of a call that was to emit `intended`, with `more` to follow. */
  lemma PartDelivered(before: Trace, after: Trace, intended: Trace, more: Trace, ok: bool)
    requires Delivers(before, after, intended, ok)
    ensures ok ==> after == before + intended
    ensures !ok ==> after <= before + intended + more && after != before + intended + more
    ensures [] + intended == intended && before + intended + [] == before + intended
  {
  }

  /**
   * A request streamed through a sink, stopped at the first refused emission, and rebuilt
   * from what was delivered: the intended turn when nothing failed, and otherwise a first
   * part of it, but for the last tool or execution when the refusal hit its content.
   */
  method StreamAndRebuild(
      fails: nat -> bool, streamID: string, turns: seq<Turn>, stopReason: string, outputTokens: int)
    returns (ok: bool, delivered: Trace, r: Reassembler.Parsed)
    requires Orderly(turns) && DistinctCalls(AllCalls(turns))
    ensures ok <==> delivered == Emitted(streamID, turns, stopReason, outputTokens)
    ensures ok ==> r == Intended(streamID, turns)
    ensures FirstPartOf(delivered, Emitted(streamID, turns, stopReason, outputTokens), "", r, Intended(streamID, turns))
  {
    hide Adapter.RespondAll, RunCallbacks, PreambleEvents, EpilogueEvents, Intended, DistinctCalls, FirstPartOf,
         Adapter.Adapter.Valid, Delivers;
    var sink := new Sink(fails);
    var publisher := new Publisher(sink);
    var adapter := new Adapter.Adapter(publisher);
    ghost var run := Adapter.RespondAll(Adapter.INITIAL, RunCallbacks(turns, 0)).events;
    ghost var opening, closing := PreambleEvents(streamID), EpilogueEvents(stopReason, outputTokens);
    RunEmission(Adapter.INITIAL, turns, 0);
    ok := publisher.SendStreamPreamble(streamID);
    PartDelivered([], sink.delivered, opening, run + closing, ok);
    Assoc(opening, run, closing);
    if ok {
      ok := adapter.Drive(RunCallbacks(turns, 0));
      assert Delivers(opening, sink.delivered, run, ok) by { DrivenPart(opening, sink.delivered, run, ok); }
      PartDelivered(opening, sink.delivered, run, closing, ok);
      if ok {
        ok := publisher.SendStreamEpilogue(stopReason, outputTokens);
        PartDelivered(opening + run, sink.delivered, closing, [], ok);
      }
    }
    delivered := sink.delivered;
    r := Reassembler.Reassemble(delivered, "");
    RebuiltFromPart(streamID, turns, stopReason, outputTokens, delivered, "", r);
  }

  // ------------------------------------------------------------------ over the wire

  /**
   * What is asked of the JSON encoding: it loses nothing, sets no id, names events
   * without CR, LF or NUL, and its output holds no raw CR.
   */
  ghost predicate FaithfulCodec(encode: Event -> Codec.Event, decode: Codec.Event -> Event) {
    forall e ::
      && decode(encode(e)) == e
      && encode(e).id == [] && Codec.Clean(encode(e).event) && CR !in encode(e).data
  }

  /** Events without ids, with clean names and no CR, come off the wire as they went on. */
  lemma {:induction false} PlainEventsSurvive(evs: seq<Codec.Event>)
    requires forall k :: 0 <= k < |evs| ==> evs[k].id == [] && Codec.Clean(evs[k].event) && CR !in evs[k].data
    ensures PrintParse.Expected(Resume.Framed(evs), []) == evs
  {
    hide Codec.Normalize;
    if evs != [] {
      PlainEventsSurvive(evs[1..]);
      assert Resume.Framed(evs)[1..] == Resume.Framed(evs[1..]);
      Codec.NormalizeKeepsOneLine(evs[0].data);
    }
  }

  /** The events read off any first part of the wire are a first part of those sent. */
  lemma WireKeepsEvents(encode: Event -> Codec.Event, decode: Codec.Event -> Event, es: Trace, received: Bytes)
    requires FaithfulCodec(encode, decode)
    requires received <= Resume.Wire(Map(encode, es))
    ensures Map(decode, EventStream.Events(received)) <= es
    ensures received == Resume.Wire(Map(encode, es)) ==> Map(decode, EventStream.Events(received)) == es
  {
    hide EventStream.Events, PrintParse.Expected, PrintParse.RenderAll, Map;
    var sent := Map(encode, es);
    var wire := Resume.Wire(sent);
    assert received + wire[|received|..] == wire;
    EventStream.CutStreamReadsPrefix(received, wire[|received|..]);
    PrintParse.PrintParseRoundTrip(Resume.Framed(sent));
    PlainEventsSurvive(sent);
    var got := EventStream.Events(received);
    assert got <= sent;
    assert forall k :: 0 <= k < |got| ==> got[k] == sent[k] == encode(es[k]);
  }

  /**
   * A client of an SSE connection that may be cut at any octet, seen as a clean end or,
   * when `broken`, as an error of the reader, and that delivers its octets in any chunks:
   * parse, decode, rebuild. The intended turn when everything arrived, whatever the reader
   * says after that; otherwise a first part of it, but for the last tool or execution when
   * the cut comes between its start and its content, and with the reader's error.
   */
  method RebuildFromConnection(
      encode: Event -> Codec.Event, decode: Codec.Event -> Event, streamID: string, turns: seq<Turn>,
      stopReason: string, outputTokens: int, chunks: seq<Bytes>, broken: bool, failure: string)
    returns (r: Reassembler.Parsed)
    requires FaithfulCodec(encode, decode)
    requires Orderly(turns) && DistinctCalls(AllCalls(turns))
    requires Concat(chunks) <= Resume.Wire(Map(encode, Emitted(streamID, turns, stopReason, outputTokens)))
    ensures Concat(chunks) == Resume.Wire(Map(encode, Emitted(streamID, turns, stopReason, outputTokens)))
            ==> r == Intended(streamID, turns)
    ensures FirstPartOf(Map(decode, EventStream.Events(Concat(chunks))),
                        Emitted(streamID, turns, stopReason, outputTokens),
                        if broken then failure else "", r, Intended(streamID, turns))
  {
    hide Emitted, Intended, DistinctCalls, FirstPartOf, FaithfulCodec, EventStream.Events, Resume.Wire, Concat;
    var evs, retry, end := SseSource.ReadAll(chunks, broken);
    var events := Map(decode, evs);
    var error := if end.ScanFailed? then failure else "";
    WireKeepsEvents(encode, decode, Emitted(streamID, turns, stopReason, outputTokens), Concat(chunks));
    r := Reassembler.Reassemble(events, error);
    RebuiltFromPart(streamID, turns, stopReason, outputTokens, events, error, r);
  }
}
