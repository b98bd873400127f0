/**
 * Resuming a dropped connection, end to end: events go to the wire and to the store
 * (multisink.go), the client reads what arrived before the connection dropped, and the
 * store is asked for what came after the id the client holds.
 */
module Resume {
  import opened Octets
  import opened LineScanner
  import opened Codec
  import opened EventStream
  import opened PrintParse
  import opened EventStore
  import opened SseSource

  /** Ids that are present are distinct and survive framing unchanged. */
  predicate ResumableIds(history: seq<Event>) {
    && (forall k :: 0 <= k < |history| ==> Clean(history[k].id))
    && (forall j, k :: 0 <= j < k < |history| && history[j].id != [] ==> history[j].id != history[k].id)
  }

  function Framed(history: seq<Event>): (frames: seq<Frame>)
    ensures |frames| == |history|
  {
    seq(|history|, k requires 0 <= k < |history| => EventFrame(history[k]))
  }

  function Wire(history: seq<Event>): Bytes {
    RenderAll(Framed(history))
  }

  /** The last event that carries an id. */
  function LastBearer(history: seq<Event>): (j: Option<nat>)
    ensures j.Some? ==> j.value < |history| && history[j.value].id != []
    ensures forall i :: (if j.Some? then j.value + 1 else 0) <= i < |history| ==> history[i].id == []
  {
    if history == [] then None
    else if history[|history| - 1].id != [] then Some(|history| - 1)
    else LastBearer(history[..|history| - 1])
  }

  function IdHeld(history: seq<Event>, prior: Bytes): Bytes {
    var j := LastBearer(history);
    if j.Some? then history[j.value].id else prior
  }

  lemma {:induction false} ExpectedIds(history: seq<Event>, k: nat, prior: Bytes)
    requires k < |history| && forall i :: 0 <= i < |history| ==> Clean(history[i].id)
    ensures
      var evs := Expected(Framed(history), prior);
      |evs| == |history| && evs[k].id == IdHeld(history[..k + 1], prior)
  {
    hide Codec.Normalize, Codec.SanitizeFieldValue;
    var id := IdAfter(prior, EventFrame(history[0]));
    assert Framed(history)[1..] == Framed(history[1..]);
    if k > 0 {
      ExpectedIds(history[1..], k - 1, id);
      assert history[..k + 1][1..] == history[1..][..k];
      IdHeldCons(history[..k + 1], prior);
    } else {
      if |history| > 1 {
        ExpectedIds(history[1..], 0, id);
      }
      assert history[..1][..0] == [] && history[..1] == [history[0]];
    }
  }

  lemma {:induction false} IdHeldCons(history: seq<Event>, prior: Bytes)
    requires history != []
    ensures IdHeld(history, prior) == IdHeld(history[1..], if history[0].id != [] then history[0].id else prior)
  {
  }

  /** What the store should answer a client that has decoded the first `k` events. */
  function Missed(history: seq<Event>, k: nat, capacity: nat): Replay
    requires k <= |history|
  {
    var j := LastBearer(history[..k]);
    if j.Some? && j.value >= Evicted(history, capacity) then Replay(history[j.value + 1..], true)
    else Replay([], false)
  }

  /** A client that read any first part of the wire holds the id of the last id-bearing event it decoded. */
  lemma {:induction false} DecodedIdIsHeld(history: seq<Event>, received: Bytes)
    requires ResumableIds(history) && received <= Wire(history)
    ensures
      var decoded := Events(received);
      |decoded| <= |history| && (decoded != [] ==> decoded[|decoded| - 1].id == IdHeld(history[..|decoded|], []))
  {
    hide Expected, RenderAll, Events;
    var rest := Wire(history)[|received|..];
    assert received + rest == Wire(history);
    CutStreamReadsPrefix(received, rest);
    PrintParseRoundTrip(Framed(history));
    var k := |Events(received)|;
    if history == [] {
      NothingExpected(history);
    } else {
      ExpectedIds(history, 0, []);
      if k > 0 {
        ExpectedIds(history, k - 1, []);
      }
    }
  }

  /** The store answers the id held after `k` events as it should. */
  lemma {:induction false} HeldIdResumes(history: seq<Event>, k: nat, capacity: nat)
    requires ResumableIds(history) && k <= |history|
    ensures ReplayAfter(history, capacity, IdHeld(history[..k], [])) == Missed(history, k, capacity)
  {
    hide LastPosition;
    var j, id := LastBearer(history[..k]), IdHeld(history[..k], []);
    if j.Some? {
      assert history[j.value].id == id;
      if j.value >= Evicted(history, capacity) {
        NamesLastPosition(history, capacity, id, j.value);
      } else {
        NamesNothing(history, capacity, id);
      }
    }
  }

  /**
   * A client that decoded `k` events of a connection cut anywhere holds the id of the
   * last id-bearing event among them, and the store answers that id with everything
   * after that event, or reports it unknown when it was evicted (or no id came at all).
   */
  lemma {:induction false} GapFreeResume(history: seq<Event>, received: Bytes, capacity: nat)
    requires ResumableIds(history) && received <= Wire(history)
    ensures
      var decoded := Events(received);
      && |decoded| <= |history|
      && (decoded != [] ==>
            ReplayAfter(history, capacity, decoded[|decoded| - 1].id) == Missed(history, |decoded|, capacity))
  {
    hide Events, Wire, ReplayAfter, Missed, IdHeld;
    DecodedIdIsHeld(history, received);
    HeldIdResumes(history, |Events(received)|, capacity);
  }

  lemma NothingExpected(history: seq<Event>)
    ensures history == [] ==> Expected(Framed(history), []) == []
  {
  }

  /** Nothing is skipped: what is replayed overlaps what was decoded in id-less events only. */
  lemma ReplayIsGapFree(history: seq<Event>, k: nat, capacity: nat)
    requires k <= |history| && Missed(history, k, capacity).known
    ensures
      var replay := Missed(history, k, capacity).events;
      && |replay| >= |history| - k
      && replay[|replay| - (|history| - k)..] == history[k..]
      && forall i :: 0 <= i < |replay| - (|history| - k) ==> replay[i].id == []
  {
  }

  /**
   * One live emission: the wire first, then retention. The store gets the event even when
   * the wire failed part of the way; the emission fails exactly when the wire does.
   */
  method EmitToBoth(wire: WriterSink, store: InMemoryEventStore, streamID: Bytes, ev: Event) returns (ok: bool)
    requires store.Valid() && wire !in store.Repr
    modifies wire, store.Repr
    ensures store.Valid() && fresh(store.Repr - old(store.Repr))
    ensures wire.written == old(wire.written) + Taken(wire.limit(old(wire.writes)), Render(EventFrame(ev)))
    ensures wire.writes == old(wire.writes) + 1 && (ok <==> wire.limit(old(wire.writes)).None?)
    ensures store.Retained() == Apply(old(store.Retained()), AppendOp(streamID, ev))
  {
    hide Render, StreamBuffer.Valid, Apply;
    ok := wire.Emit(ev);
    store.Append(streamID, ev);
  }

  /** How many events of a history are emitted: up to and including the first write that fails. */
  function Attempted(history: seq<Event>, limit: nat -> Option<nat>, n: nat): (m: nat)
    requires n <= |history|
    ensures n <= m <= |history|
    ensures forall k: nat :: n <= k < m - 1 ==> limit(k).None?
    ensures m < |history| ==> n < m && limit(m - 1).Some?
    decreases |history| - n
  {
    if n == |history| then n else if limit(n).Some? then n + 1 else Attempted(history, limit, n + 1)
  }

  /** What the wire has taken of the first `n` events when none before the last has failed. */
  function OnWire(history: seq<Event>, limit: nat -> Option<nat>, n: nat): Bytes
    requires n <= |history|
  {
    if n == 0 then []
    else Wire(history[..n - 1]) + Taken(limit(n - 1), Render(EventFrame(history[n - 1])))
  }

  lemma {:induction false} WireSnoc(history: seq<Event>, n: nat)
    requires n < |history|
    ensures Wire(history[..n + 1]) == Wire(history[..n]) + Render(EventFrame(history[n]))
  {
    hide RenderAll, Render;
    RenderAllSnoc(Framed(history[..n]), EventFrame(history[n]));
    assert Framed(history[..n]) + [EventFrame(history[n])] == Framed(history[..n + 1]);
  }

  /** A write that fails is a cut like any other. */
  lemma OnWireIsPart(history: seq<Event>, limit: nat -> Option<nat>, n: nat)
    requires n <= |history|
    ensures OnWire(history, limit, n) <= Wire(history[..n])
    ensures n > 0 && limit(n - 1).None? ==> OnWire(history, limit, n) == Wire(history[..n])
  {
    hide RenderAll, Render;
    if n > 0 {
      WireSnoc(history, n - 1);
    }
  }

  lemma {:induction false} RenderAllSnoc(frames: seq<Frame>, frame: Frame)
    ensures RenderAll(frames + [frame]) == RenderAll(frames) + Render(frame)
  {
    if frames == [] {
      assert frames + [frame] == [frame] && [frame][1..] == [];
      assert RenderAll([frame]) == Render(frame) + [];
    } else {
      assert (frames + [frame])[1..] == frames[1..] + [frame];
      RenderAllSnoc(frames[1..], frame);
      Assoc(Render(frames[0]), RenderAll(frames[1..]), Render(frame));
    }
  }

  /** Emits a history until a write fails. */
  method EmitHistory(history: seq<Event>, capacity: nat, streamID: Bytes, limit: nat -> Option<nat>)
    returns (wire: WriterSink, store: InMemoryEventStore, n: nat)
    requires capacity > 0
    ensures fresh(wire) && n == Attempted(history, limit, 0) && wire.written == OnWire(history, limit, n)
    ensures fresh(store) && fresh(store.Repr) && store.Valid() && store.capacity == capacity
    ensures HistoryOf(store.Retained(), streamID) == history[..n]
  {
    hide RenderAll, Render, Framed, StreamBuffer.Valid, Wire, Taken, Apply, HistoryOf;
    wire := new WriterSink(limit);
    store := new InMemoryEventStore(capacity);
    n := 0;
    assert Wire([]) == [] && history[..0] == [] by { NoFrames(); }
    NoHistory(streamID);
    var ok := true;
    while ok && n < |history|
      invariant store.Valid() && fresh(store.Repr) && fresh(store) && fresh(wire) && wire !in store.Repr
      invariant store.capacity == capacity && wire.limit == limit
      invariant n <= |history| && wire.writes == n
      invariant Attempted(history, limit, 0) == if ok then Attempted(history, limit, n) else n
      invariant wire.written == OnWire(history, limit, n) && (ok ==> wire.written == Wire(history[..n]))
      invariant HistoryOf(store.Retained(), streamID) == history[..n]
      decreases |history| - n
    {
      OnWireIsPart(history, limit, n + 1);
      assert history[..n + 1] == history[..n] + [history[n]];
      HistoryGrows(store.Retained(), streamID, history[n]);
      ok := EmitToBoth(wire, store, streamID, history[n]);
      n := n + 1;
    }
  }

  lemma NoHistory(streamID: Bytes)
    ensures HistoryOf(map[], streamID) == []
  {
  }

  lemma HistoryGrows(hs: Histories, streamID: Bytes, ev: Event)
    ensures HistoryOf(Apply(hs, AppendOp(streamID, ev)), streamID) == HistoryOf(hs, streamID) + [ev]
  {
  }

  lemma NoFrames()
    ensures Wire([]) == []
  {
  }

  /**
   * A whole session: emit a history live until a write fails, if one does, let a client
   * read the reads that got through, and ask the store for the rest with the id the client
   * held after its last event.
   */
  method ResumeSession(
      history: seq<Event>, capacity: nat, streamID: Bytes, limit: nat -> Option<nat>, chunks: seq<Bytes>)
    returns (decoded: seq<Event>, replay: Replay)
    requires capacity > 0 && ResumableIds(history)
    requires Concat(chunks) <= OnWire(history, limit, Attempted(history, limit, 0))
    ensures decoded == Events(Concat(chunks)) && |decoded| <= Attempted(history, limit, 0)
    ensures replay == Missed(history[..Attempted(history, limit, 0)], |decoded|, capacity)
  {
    hide Wire, Events, StreamBuffer.Valid, ReplayAfter, Missed, OnWire;
    var wire, store, n := EmitHistory(history, capacity, streamID, limit);
    var held;
    decoded, held := DecodeAll(chunks);
    replay := store.Since(streamID, held);
    OnWireIsPart(history, limit, n);
    var emitted := history[..n];
    assert forall k :: 0 <= k < n ==> emitted[k] == history[k];
    GapFreeResume(emitted, Concat(chunks), capacity);
    NothingDecoded(emitted, capacity);
  }

  /** Reads until the connection breaks, noting the last-event-id after each event. */
  method DecodeAll(chunks: seq<Bytes>) returns (decoded: seq<Event>, held: Bytes)
    ensures decoded == Events(Concat(chunks))
    ensures held == if decoded == [] then [] else decoded[|decoded| - 1].id
  {
    hide Lines, Interpret, Groups, LastId, Concat;
    var scanner := new Scanner(chunks, true);
    var src := new Source(scanner);
    ghost var all := src.Upcoming();
    decoded, held := [], [];
    var next := src.ReadNext();
    while next.Got?
      invariant src.Valid() && src.scanner == scanner && fresh(src) && fresh(scanner)
      invariant next.Got? ==> all == decoded + ([next.event] + src.Upcoming())
      invariant next.Got? ==> src.lastEventID == next.event.id
      invariant !next.Got? ==> all == decoded
      invariant held == if decoded == [] then [] else decoded[|decoded| - 1].id
      decreases |scanner.Remaining()|, next.Got?
    {
      Assoc(decoded, [next.event], src.Upcoming());
      decoded, held := decoded + [next.event], src.lastEventID;
      next := src.ReadNext();
    }
  }

  lemma NothingDecoded(history: seq<Event>, capacity: nat)
    ensures ReplayAfter(history, capacity, []) == Missed(history, 0, capacity)
  {
  }
}
