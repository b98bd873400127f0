/**
 * A stream read over several connections, each of them cut: what the client must carry
 * from one to the next so that nothing is skipped.
 */
module Reconnects {
  import opened Octets
  import opened Codec
  import opened EventStream
  import opened PrintParse
  import opened EventStore
  import opened Resume

  /** What a client has: the id it will send, and which events of the stream it has decoded. */
  datatype Client = Client(held: Bytes, frontier: nat, seen: set<nat>)

  /** One more connection: how much the server had emitted, and the octets that arrived. */
  datatype Connection = Connection(emitted: nat, received: Bytes)

  /** A new source starts without an id, so the client keeps its own until a new one comes. */
  function Carried(held: Bytes, own: Bytes): Bytes {
    if own != [] then own else held
  }

  /** The id a source ends on. */
  function OwnId(decoded: seq<Event>): Bytes {
    if decoded == [] then [] else decoded[|decoded| - 1].id
  }

  /** The positions from `lo` up to `hi`. */
  function Span(lo: nat, hi: nat): (r: set<nat>)
    ensures forall x :: x in r <==> lo <= x < hi
    decreases hi - lo
  {
    if lo >= hi then {} else {lo} + Span(lo + 1, hi)
  }

  function Max(a: nat, b: nat): nat {
    if a < b then b else a
  }

  /** The replay the store gives the client. */
  function Answered(all: seq<Event>, capacity: nat, c: Client, conn: Connection): Replay
    requires conn.emitted <= |all|
  {
    ReplayAfter(all[..conn.emitted], capacity, c.held)
  }

  /** Where a replay begins in the stream. */
  function Base(conn: Connection, replay: Replay): nat {
    if |replay.events| <= conn.emitted then conn.emitted - |replay.events| else 0
  }

  /** A connection the server can make: the replay, then what is emitted after it. */
  predicate Possible(all: seq<Event>, capacity: nat, c: Client, conn: Connection) {
    && c.frontier <= conn.emitted <= |all|
    && conn.received <= Wire(all[Base(conn, Answered(all, capacity, c, conn))..])
  }

  /** The client after the connection is cut; `None` when the store did not know its id. */
  function Reconnected(all: seq<Event>, capacity: nat, c: Client, conn: Connection): Option<Client>
    requires conn.emitted <= |all|
  {
    var replay := Answered(all, capacity, c, conn);
    if !replay.known then None else
      var base, decoded := Base(conn, replay), Events(conn.received);
      Some(Client(Carried(c.held, OwnId(decoded)), Max(c.frontier, base + |decoded|),
                  c.seen + Span(base, base + |decoded|)))
  }

  /** Everything up to the frontier has been decoded, and the id of its last bearer is held. */
  ghost predicate GapFree(all: seq<Event>, c: Client) {
    && c.frontier <= |all|
    && c.held == IdHeld(all[..c.frontier], [])
    && forall x: nat :: x in c.seen <==> x < c.frontier
  }

  lemma IdHeldSnoc(a: seq<Event>, e: Event, prior: Bytes)
    ensures IdHeld(a + [e], prior) == if e.id != [] then e.id else IdHeld(a, prior)
  {
  }

  lemma {:induction false} IdHeldAppend(a: seq<Event>, b: seq<Event>, prior: Bytes)
    ensures IdHeld(a + b, prior) == IdHeld(b, IdHeld(a, prior))
  {
    if b == [] {
      assert a + b == a;
    } else {
      hide IdHeld;
      var init, e := b[..|b| - 1], b[|b| - 1];
      IdHeldAppend(a, init, prior);
      IdHeldSnoc(init, e, IdHeld(a, prior));
      IdHeldSnoc(a + init, e, prior);
      assert init + [e] == b;
      Assoc(a, init, [e]);
    }
  }

  lemma SuffixResumable(all: seq<Event>, n: nat)
    requires ResumableIds(all) && n <= |all|
    ensures ResumableIds(all[n..]) && ResumableIds(all[..n])
  {
  }

  /** Where the replay begins: after the last id-bearing event that was decoded. */
  lemma {:induction false} ReplayBase(all: seq<Event>, capacity: nat, c: Client, conn: Connection)
    requires ResumableIds(all) && GapFree(all, c) && c.frontier <= conn.emitted <= |all|
    ensures
      var replay := Answered(all, capacity, c, conn);
      && replay == Missed(all[..conn.emitted], c.frontier, capacity)
      && (replay.known ==>
            var base := Base(conn, replay);
            && base <= c.frontier && replay.events == all[base..conn.emitted]
            && (forall i :: base <= i < c.frontier ==> all[i].id == [])
            && IdHeld(all[..base], []) == c.held)
  {
    hide ReplayAfter;
    var emitted := all[..conn.emitted];
    SuffixResumable(all, conn.emitted);
    assert emitted[..c.frontier] == all[..c.frontier];
    HeldIdResumes(emitted, c.frontier, capacity);
    var j := LastBearer(all[..c.frontier]);
    if Answered(all, capacity, c, conn).known {
      var base := j.value + 1;
      assert all[..base][..base - 1] == all[..j.value];
      assert all[..c.frontier][j.value] == all[j.value];
      assert emitted[base..] == all[base..conn.emitted];
      assert forall i :: base <= i < c.frontier ==> all[..c.frontier][i] == all[i];
    }
  }

  /**
   * One more connection, cut anywhere, leaves no gap: it begins at or before the first
   * event not decoded yet, comes twice with events without id only, reads as the events
   * from there on, and leaves the client with the id of the last bearer it has decoded.
   */
  lemma {:induction false} ReconnectKeepsGapFree(all: seq<Event>, capacity: nat, c: Client, conn: Connection)
    requires ResumableIds(all) && GapFree(all, c) && Possible(all, capacity, c, conn)
    ensures
      var base, decoded := Base(conn, Answered(all, capacity, c, conn)), Events(conn.received);
      Reconnected(all, capacity, c, conn).Some? ==>
        && GapFree(all, Reconnected(all, capacity, c, conn).value)
        && c.frontier <= Reconnected(all, capacity, c, conn).value.frontier
        && base <= c.frontier && (forall i :: base <= i < c.frontier ==> all[i].id == [])
        && decoded <= Expected(Framed(all[base..]), [])
        && OwnId(decoded) == IdHeld(all[base..][..|decoded|], [])
  {
    hide Events, Expected, Wire, ReplayAfter, ResumableIds, IdHeld, Missed;
    if Reconnected(all, capacity, c, conn).Some? {
      var replay, decoded := Answered(all, capacity, c, conn), Events(conn.received);
      var base := Base(conn, replay);
      ReplayBase(all, capacity, c, conn);
      SuffixResumable(all, base);
      DecodedIdIsHeld(all[base..], conn.received);
      DecodedIsPart(all[base..], conn.received);
      NothingHeld(all[base..]);
      HeldAfter(all, c, base, |decoded|, OwnId(decoded));
      SeenAfter(c, base, |decoded|);
    }
  }

  lemma NothingHeld(history: seq<Event>)
    ensures IdHeld(history[..0], []) == []
  {
  }

  lemma SeenAfter(c: Client, base: nat, k: nat)
    requires (forall x: nat :: x in c.seen <==> x < c.frontier) && base <= c.frontier
    ensures
      var seen := c.seen + Span(base, base + k);
      forall x: nat :: x in seen <==> x < Max(c.frontier, base + k)
  {
  }

  lemma DecodedIsPart(history: seq<Event>, received: Bytes)
    requires received <= Wire(history)
    ensures Events(received) <= Expected(Framed(history), [])
  {
    hide Events, Expected, RenderAll;
    var rest := Wire(history)[|received|..];
    assert received + rest == Wire(history);
    CutStreamReadsPrefix(received, rest);
    PrintParseRoundTrip(Framed(history));
  }

  /** The carried id is the one of the last bearer decoded on any connection. */
  lemma HeldAfter(all: seq<Event>, c: Client, base: nat, k: nat, own: Bytes)
    requires GapFree(all, c) && base <= c.frontier && base + k <= |all|
    requires IdHeld(all[..base], []) == c.held && forall i :: base <= i < c.frontier ==> all[i].id == []
    requires own == IdHeld(all[base..][..k], [])
    ensures Carried(c.held, own) == IdHeld(all[..Max(c.frontier, base + k)], [])
    ensures own != [] <==> exists i :: base <= i < base + k && all[i].id != []
  {
    var d := all[base..][..k];
    assert d == all[base..base + k];
    assert all[..base + k] == all[..base] + d;
    IdHeldAppend(all[..base], d, []);
    assert forall i :: 0 <= i < k ==> d[i] == all[base + i];
    if own != [] {
      assert all[base + LastBearer(d).value].id != [];
    } else {
      assert forall i :: base <= i < base + k ==> all[i] == d[i - base];
    }
  }

  /** Several connections, one after the other, as long as the store knows the id. */
  function ReconnectAll(all: seq<Event>, capacity: nat, c: Client, conns: seq<Connection>): Option<Client>
    decreases conns
  {
    if conns == [] then Some(c)
    else if !Possible(all, capacity, c, conns[0]) then None
    else
      var next := Reconnected(all, capacity, c, conns[0]);
      if next.None? then None else ReconnectAll(all, capacity, next.value, conns[1..])
  }

  /** The client of the first connection, cut anywhere. */
  function FirstClient(received: Bytes): Client {
    var decoded := Events(received);
    Client(OwnId(decoded), |decoded|, Span(0, |decoded|))
  }

  lemma FirstClientIsGapFree(all: seq<Event>, received: Bytes)
    requires ResumableIds(all) && received <= Wire(all)
    ensures GapFree(all, FirstClient(received))
  {
    hide Events, Wire;
    DecodedIdIsHeld(all, received);
    assert all[..0] == [];
  }

  /**
   * However many connections are cut, wherever: as long as the store knows the ids, the
   * events decoded on all of them together are exactly the first events of the stream,
   * and the id held is that of the last one that bears one.
   */
  lemma {:induction false} SeveralConnections(all: seq<Event>, capacity: nat, c: Client, conns: seq<Connection>)
    requires ResumableIds(all) && GapFree(all, c) && ReconnectAll(all, capacity, c, conns).Some?
    ensures
      var d := ReconnectAll(all, capacity, c, conns).value;
      GapFree(all, d) && c.frontier <= d.frontier
    decreases conns
  {
    hide GapFree, ResumableIds, Events, Wire, Reconnected, Answered, Base;
    if conns != [] {
      ReconnectKeepsGapFree(all, capacity, c, conns[0]);
      SeveralConnections(all, capacity, Reconnected(all, capacity, c, conns[0]).value, conns[1..]);
    }
  }

  /** A connection that is not cut brings everything that was missing, if the id is known. */
  lemma {:induction false} UncutConnectionCompletes(all: seq<Event>, capacity: nat, c: Client, emitted: nat, conn: Connection)
    requires ResumableIds(all) && GapFree(all, c) && c.frontier <= emitted <= |all|
    requires Missed(all[..emitted], c.frontier, capacity).known
    requires conn.emitted == emitted
    requires conn.received == Wire(all[Base(conn, Answered(all, capacity, c, conn))..])
    ensures Possible(all, capacity, c, conn) && Reconnected(all, capacity, c, conn).Some?
    ensures Reconnected(all, capacity, c, conn).value.frontier == |all|
  {
    hide Events, Expected, Wire, ResumableIds, LastPosition, ReplayAfter, Missed, IdHeld;
    ReplayBase(all, capacity, c, conn);
    var rest := all[Base(conn, Answered(all, capacity, c, conn))..];
    SuffixResumable(all, |all| - |rest|);
    WholeWireDecodes(rest);
  }

  lemma WholeWireDecodes(history: seq<Event>)
    requires ResumableIds(history)
    ensures |Events(Wire(history))| == |history|
  {
    hide Events, Expected, RenderAll;
    PrintParseRoundTrip(Framed(history));
    if history == [] {
      NothingExpected(history);
    } else {
      ExpectedIds(history, 0, []);
    }
  }

  /**
   * When the id must be carried. A client that sends what its newest source holds gets
   * the same replay as one that carries its id on, if and only if an event decoded on that
   * connection bore an id, or the store has lost the carried id by then.
   */
  lemma {:induction false} OwnIdSufficesIff(all: seq<Event>, capacity: nat, c: Client, conn: Connection, later: nat)
    requires ResumableIds(all) && GapFree(all, c) && Possible(all, capacity, c, conn)
    requires Reconnected(all, capacity, c, conn).Some?
    requires Reconnected(all, capacity, c, conn).value.frontier <= later <= |all|
    ensures
      var base, decoded := Base(conn, Answered(all, capacity, c, conn)), Events(conn.received);
      var carried := ReplayAfter(all[..later], capacity, Reconnected(all, capacity, c, conn).value.held);
      ReplayAfter(all[..later], capacity, OwnId(decoded)) == carried
      <==> (exists i :: base <= i < base + |decoded| && all[i].id != []) || !carried.known
  {
    hide Events, Expected, Wire, ResumableIds, LastPosition;
    var replay, decoded := Answered(all, capacity, c, conn), Events(conn.received);
    var base := Base(conn, replay);
    ReplayBase(all, capacity, c, conn);
    SuffixResumable(all, base);
    DecodedIdIsHeld(all[base..], conn.received);
    HeldAfter(all, c, base, |decoded|, OwnId(decoded));
  }

  /** One reconnect through the objects: ask the store, read what arrives, keep the id. */
  method Reconnect(store: InMemoryEventStore, streamID: Bytes, held: Bytes, chunks: seq<Bytes>)
    returns (replay: Replay, decoded: seq<Event>, carried: Bytes)
    requires store.Valid()
    ensures replay == ReplayAfter(HistoryOf(store.Retained(), streamID), store.capacity, held)
    ensures decoded == Events(Concat(chunks)) && carried == Carried(held, OwnId(decoded))
  {
    hide ReplayAfter, Events, Concat, StreamBuffer.Valid;
    replay := store.Since(streamID, held);
    var own;
    decoded, own := DecodeAll(chunks);
    carried := Carried(held, own);
  }
}
