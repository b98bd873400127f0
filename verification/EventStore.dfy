/**
 * Bounded retention per stream (store.go): a ring buffer for order and an id index for
 * lookup, proved to answer as if the whole history were kept and cut to its last events.
 */
module EventStore {
  import opened Octets
  import opened Codec

  // ------------------------------------------------------------ list reference

  /** How many of the oldest events of a history are no longer retained. */
  function Evicted(history: seq<Event>, capacity: nat): nat {
    if |history| <= capacity then 0 else |history| - capacity
  }

  /** `k` is the retained position an id names: its last occurrence. */
  predicate Names(history: seq<Event>, capacity: nat, id: Bytes, k: nat) {
    && Evicted(history, capacity) <= k < |history|
    && history[k].id == id != []
    && forall j :: k < j < |history| ==> history[j].id != id
  }

  /** The last position at or after `from` holding `id`; the length when there is none. */
  function LastPosition(history: seq<Event>, from: nat, id: Bytes): (k: nat)
    requires from <= |history|
    ensures from <= k <= |history|
    ensures k < |history| ==> history[k].id == id && forall j :: k < j < |history| ==> history[j].id != id
    ensures k == |history| ==> forall j :: from <= j < |history| ==> history[j].id != id
    decreases |history| - from
  {
    if from == |history| then |history|
    else
      var k := LastPosition(history, from + 1, id);
      if k < |history| then k
      else if history[from].id == id then from
      else |history|
  }

  datatype Replay = Replay(events: seq<Event>, known: bool)

  /** Everything after the last retained event with that id. */
  function ReplayAfter(history: seq<Event>, capacity: nat, id: Bytes): Replay {
    var k := LastPosition(history, Evicted(history, capacity), id);
    if id == [] || k == |history| then Replay([], false) else Replay(history[k + 1..], true)
  }

  lemma NamesLastPosition(history: seq<Event>, capacity: nat, id: Bytes, k: nat)
    requires Names(history, capacity, id, k)
    ensures ReplayAfter(history, capacity, id) == Replay(history[k + 1..], true)
  {
  }

  lemma NamesNothing(history: seq<Event>, capacity: nat, id: Bytes)
    requires forall k :: !Names(history, capacity, id, k)
    ensures ReplayAfter(history, capacity, id) == Replay([], false)
  {
    var k := LastPosition(history, Evicted(history, capacity), id);
    assert !Names(history, capacity, id, k);
  }

  /** The last event with that id, if it is among the last `capacity` ones. */
  ghost predicate ResumesAt(history: seq<Event>, capacity: nat, id: Bytes, k: nat) {
    && k < |history| && |history| - capacity <= k
    && id != [] && history[k].id == id
    && forall j :: k < j < |history| ==> history[j].id != id
  }

  /**
   * An id is known if and only if it is not empty and one of the last `capacity` events
   * bears it; then the answer is what came after the last of those.
   */
  lemma KnownIff(history: seq<Event>, capacity: nat, id: Bytes)
    ensures ReplayAfter(history, capacity, id).known <==>
              id != [] && exists k: nat :: k < |history| && |history| - capacity <= k && history[k].id == id
    ensures forall k: nat :: ResumesAt(history, capacity, id, k) ==>
              ReplayAfter(history, capacity, id) == Replay(history[k + 1..], true)
    ensures !ReplayAfter(history, capacity, id).known ==> ReplayAfter(history, capacity, id).events == []
  {
    hide LastPosition;
    forall k: nat | ResumesAt(history, capacity, id, k)
      ensures ReplayAfter(history, capacity, id) == Replay(history[k + 1..], true)
    {
      NamesLastPosition(history, capacity, id, k);
    }
    if k: nat :| id != [] && k < |history| && |history| - capacity <= k && history[k].id == id {
      var j := LastBearing(history, id, k);
      NamesLastPosition(history, capacity, id, j);
    } else {
      NamesNothing(history, capacity, id);
    }
  }

  lemma {:induction false} LastBearing(history: seq<Event>, id: Bytes, k: nat) returns (j: nat)
    requires k < |history| && history[k].id == id
    ensures k <= j < |history| && history[j].id == id && forall i :: j < i < |history| ==> history[i].id != id
    decreases |history| - k
  {
    if i: nat :| k < i < |history| && history[i].id == id {
      j := LastBearing(history, id, i);
    } else {
      j := k;
    }
  }

  // ---------------------------------------------------------------- one stream

  datatype StoredEvent = StoredEvent(seqNo: nat, event: Event)

  /** The slot event number `k` goes to. */
  function Slot(k: nat, capacity: nat): (i: nat)
    requires capacity > 0
    ensures i < capacity
  {
    if k < capacity then k else Slot(k - capacity, capacity)
  }

  /** The index maps exactly the retained non-empty ids, each to its last occurrence. */
  ghost predicate IndexNames(h: seq<Event>, capacity: nat, ix: map<Bytes, nat>) {
    && (forall id :: id in ix ==> Names(h, capacity, id, ix[id]))
    && (forall k :: Evicted(h, capacity) <= k < |h| && h[k].id != [] ==> h[k].id in ix)
  }

  function IndexAfterEvict(ix: map<Bytes, nat>, outgoing: StoredEvent): map<Bytes, nat> {
    var id := outgoing.event.id;
    if id != [] && id in ix && ix[id] == outgoing.seqNo then ix - {id} else ix
  }

  function IndexAfterAppend(h: seq<Event>, capacity: nat, ix: map<Bytes, nat>, ev: Event): map<Bytes, nat> {
    var kept :=
      if capacity <= |h| && capacity > 0
      then IndexAfterEvict(ix, StoredEvent(|h| - capacity, h[|h| - capacity])) else ix;
    if ev.id != [] then kept[ev.id := |h|] else kept
  }

  /** Evicting an older duplicate never removes a live resume point, and no dead id stays. */
  lemma IndexStaysExact(h: seq<Event>, capacity: nat, ix: map<Bytes, nat>, ev: Event)
    requires capacity > 0 && IndexNames(h, capacity, ix)
    ensures IndexNames(h + [ev], capacity, IndexAfterAppend(h, capacity, ix, ev))
  {
    var ix', h' := IndexAfterAppend(h, capacity, ix, ev), h + [ev];
    forall id | id in ix'
      ensures Names(h', capacity, id, ix'[id])
    {
      if id != ev.id {
        assert id in ix && Names(h, capacity, id, ix[id]);
      }
    }
    forall k | Evicted(h', capacity) <= k < |h'| && h'[k].id != []
      ensures h'[k].id in ix'
    {
      if k < |h| && capacity <= |h| {
        assert h[k].id in ix && Names(h, capacity, h[k].id, ix[h[k].id]);
      }
    }
  }

  /** No more entries than retained events. */
  lemma {:induction false} IndexSizeAtMostCount(h: seq<Event>, capacity: nat, ix: map<Bytes, nat>)
    requires IndexNames(h, capacity, ix)
    ensures |ix| <= |h| - Evicted(h, capacity) <= capacity
  {
    var ids := set k | Evicted(h, capacity) <= k < |h| :: h[k].id;
    assert ix.Keys <= ids by {
      forall id | id in ix ensures id in ids {
        assert Names(h, capacity, id, ix[id]);
      }
    }
    IdsAtMost(h, Evicted(h, capacity), ids);
    SubsetSize(ix.Keys, ids);
  }

  lemma {:induction false} IdsAtMost(h: seq<Event>, from: nat, ids: set<Bytes>)
    requires from <= |h| && ids == set k | from <= k < |h| :: h[k].id
    ensures |ids| <= |h| - from
    decreases |h| - from
  {
    if from < |h| {
      var fewer := set k | from + 1 <= k < |h| :: h[k].id;
      IdsAtMost(h, from + 1, fewer);
      assert ids == fewer + {h[from].id};
    } else {
      assert ids == {};
    }
  }

  lemma {:induction false} SubsetSize<T>(a: set<T>, b: set<T>)
    requires a <= b
    ensures |a| <= |b|
  {
    assert b == a + (b - a);
  }

  class StreamBuffer {
    const ring: array<StoredEvent>
    var head: nat
    var count: nat
    var next: nat
    var index: map<Bytes, nat>

    ghost var history: seq<Event>  // everything ever appended

    constructor (capacity: nat)
      requires capacity > 0
      ensures Valid() && fresh(ring) && ring.Length == capacity && history == []
    {
      ring := new StoredEvent[capacity](_ => StoredEvent(0, Event([], [], [])));
      head, count, next, index := 0, 0, 0, map[];
      history := [];
    }

    ghost predicate Valid()
      reads this, ring
    {
      && ring.Length > 0
      && next == |history|
      && count == Min(|history|, ring.Length)
      && head == Slot(|history|, ring.Length)
      && RingHolds(history)
      && IndexNames(history, ring.Length, index)
    }

    /** The ring holds exactly the retained events, each in its slot with its number. */
    ghost predicate RingHolds(h: seq<Event>)
      requires ring.Length > 0
      reads ring
    {
      forall k :: Evicted(h, ring.Length) <= k < |h| ==>
                    ring[Slot(k, ring.Length)] == StoredEvent(k, h[k])
    }

    /** Forgets an outgoing id, unless a later event has taken it over. */
    method Evict(outgoing: StoredEvent)
      modifies this`index
      ensures index == IndexAfterEvict(old(index), outgoing)
    {
      if outgoing.event.id == [] {
        return;
      }
      if outgoing.event.id in index && index[outgoing.event.id] == outgoing.seqNo {
        index := index - {outgoing.event.id};
      }
    }

    method Append(ev: Event)
      requires Valid()
      modifies this, ring
      ensures Valid()
      ensures history == old(history) + [ev]
    {
      hide Slot, Names;
      var n := next;
      WrapOnce(head + 1, ring.Length);
      SlotsDiffer(n, ring.Length);
      SlotStep(n, ring.Length);
      IndexStaysExact(history, ring.Length, index, ev);
      next := next + 1;
      if count == ring.Length {
        Evict(ring[head]);
      }
      ring[head] := StoredEvent(n, ev);
      head := (head + 1) % ring.Length;
      if count < ring.Length {
        count := count + 1;
      }
      if ev.id != [] {
        index := index[ev.id := n];
      }
      history := history + [ev];
    }

    /** Where the oldest retained event stands. */
    function Oldest(): nat
      requires ring.Length > 0 && count <= head + ring.Length
      reads this
    {
      (head + ring.Length - count) % ring.Length
    }

    lemma EntryAt(i: nat)
      requires Valid() && i < count
      ensures
        var k := |history| - count + i;
        ring[(Oldest() + i) % ring.Length] == StoredEvent(k, history[k])
    {
      hide Slot;
      var first := |history| - count;
      SlotOffset(first, count, ring.Length);
      WrapOnce(head + ring.Length - count, ring.Length);
      SlotOffset(first, i, ring.Length);
      WrapOnce(Oldest() + i, ring.Length);
    }

    lemma IndexedAt(id: Bytes)
      requires Valid()
      ensures id in index ==> Names(history, ring.Length, id, index[id])
      ensures id in index ==> ReplayAfter(history, ring.Length, id) == Replay(history[index[id] + 1..], true)
      ensures id !in index ==> ReplayAfter(history, ring.Length, id) == Replay([], false)
    {
    }

    method Since(lastEventID: Bytes) returns (r: Replay)
      requires Valid()
      ensures r == ReplayAfter(history, ring.Length, lastEventID)
    {
      hide Slot, ReplayAfter, Between, RingHolds, IndexNames, Oldest;
      IndexedAt(lastEventID);
      if lastEventID !in index {
        return Replay([], false);
      }
      var at := index[lastEventID];
      var events := [];
      var oldest := Oldest();
      ghost var first := |history| - count;
      BetweenEnds(history, at + 1, first);
      for i := 0 to count
        invariant events == Between(history, at + 1, first + i)
      {
        EntryAt(i);
        BetweenStep(history, at + 1, first + i);
        var stored := ring[(oldest + i) % ring.Length];
        if stored.seqNo > at {
          events := events + [stored.event];
        }
      }
      return Replay(events, true);
    }
  }

  /** The events numbered `from` to `to`, none when the bounds cross. */
  function Between(h: seq<Event>, from: nat, to: nat): seq<Event>
    requires to <= |h|
  {
    if from < to then h[from..to] else []
  }

  lemma BetweenStep(h: seq<Event>, from: nat, to: nat)
    requires to < |h|
    ensures Between(h, from, to + 1) == if to < from then [] else Between(h, from, to) + [h[to]]
    ensures to < from ==> Between(h, from, to) == []
  {
  }

  lemma BetweenEnds(h: seq<Event>, from: nat, to: nat)
    requires from <= |h| && to <= |h|
    ensures to <= from ==> Between(h, from, to) == []
    ensures Between(h, from, |h|) == h[from..]
  {
  }

  // ---------------------------------------------------------- slot arithmetic

  /** The ring's `%` only ever wraps once. */
  lemma WrapOnce(x: nat, capacity: nat)
    requires 0 < capacity && x < 2 * capacity
    ensures x % capacity == if x < capacity then x else x - capacity
  {
  }

  lemma {:induction false} SlotStep(n: nat, capacity: nat)
    requires capacity > 0
    ensures Slot(n + 1, capacity) == if Slot(n, capacity) + 1 == capacity then 0 else Slot(n, capacity) + 1
  {
    if n >= capacity {
      SlotStep(n - capacity, capacity);
    }
  }

  lemma {:induction false} SlotOffset(first: nat, i: nat, capacity: nat)
    requires capacity > 0 && i <= capacity
    ensures
      var x := Slot(first, capacity) + i;
      Slot(first + i, capacity) == if x < capacity then x else x - capacity
  {
    if i > 0 {
      SlotOffset(first, i - 1, capacity);
      SlotStep(first + i - 1, capacity);
    }
  }

  /** Fewer than `capacity` apart, two events never share a slot; at `capacity` they do. */
  lemma SlotsDiffer(n: nat, capacity: nat)
    requires capacity > 0
    ensures forall k: nat :: k < n < k + capacity ==> Slot(k, capacity) != Slot(n, capacity)
    ensures n >= capacity ==> Slot(n - capacity, capacity) == Slot(n, capacity)
  {
    forall k: nat | k < n < k + capacity
      ensures Slot(k, capacity) != Slot(n, capacity)
    {
      SlotOffset(k, n - k, capacity);
    }
  }

  // ------------------------------------------------------------------ the store

  type Histories = map<Bytes, seq<Event>>

  /** One mutating call on the store. */
  datatype Op = AppendOp(streamID: Bytes, event: Event) | ClearOp(streamID: Bytes)

  function HistoryOf(hs: Histories, streamID: Bytes): seq<Event> {
    if streamID in hs then hs[streamID] else []
  }

  function Apply(hs: Histories, op: Op): Histories {
    match op
    case AppendOp(id, ev) => hs[id := HistoryOf(hs, id) + [ev]]
    case ClearOp(id) => hs - {id}
  }

  function ApplyAll(hs: Histories, ops: seq<Op>): Histories
    decreases ops
  {
    if ops == [] then hs else ApplyAll(Apply(hs, ops[0]), ops[1..])
  }

  /** What `Since` answers; an unknown stream retains nothing. */
  function Answer(hs: Histories, capacity: nat, streamID: Bytes, lastEventID: Bytes): Replay {
    ReplayAfter(HistoryOf(hs, streamID), capacity, lastEventID)
  }

  function OpsOn(ops: seq<Op>, streamID: Bytes): seq<Op> {
    if ops == [] then []
    else (if ops[0].streamID == streamID then [ops[0]] else []) + OpsOn(ops[1..], streamID)
  }

  /** After a clear no id of the stream is known, and the other streams answer as before. */
  lemma ClearedKnowsNothing(hs: Histories, capacity: nat, streamID: Bytes, other: Bytes, lastEventID: Bytes)
    ensures Answer(Apply(hs, ClearOp(streamID)), capacity, streamID, lastEventID) == Replay([], false)
    ensures other != streamID ==>
              Answer(Apply(hs, ClearOp(streamID)), capacity, other, lastEventID)
              == Answer(hs, capacity, other, lastEventID)
  {
  }

  /** A stream's answers depend on the calls on that stream alone. */
  lemma {:induction false} StreamsAreIndependent(
      hs: Histories, gs: Histories, ops: seq<Op>, streamID: Bytes, capacity: nat, id: Bytes)
    requires HistoryOf(hs, streamID) == HistoryOf(gs, streamID)
    ensures HistoryOf(ApplyAll(hs, ops), streamID) == HistoryOf(ApplyAll(gs, OpsOn(ops, streamID)), streamID)
    ensures Answer(ApplyAll(hs, ops), capacity, streamID, id)
            == Answer(ApplyAll(gs, OpsOn(ops, streamID)), capacity, streamID, id)
    decreases ops
  {
    if ops != [] {
      var op := ops[0];
      if op.streamID == streamID {
        assert OpsOn(ops, streamID)[1..] == OpsOn(ops[1..], streamID);
        StreamsAreIndependent(Apply(hs, op), Apply(gs, op), ops[1..], streamID, capacity, id);
      } else {
        assert OpsOn(ops, streamID) == OpsOn(ops[1..], streamID);
        StreamsAreIndependent(Apply(hs, op), gs, ops[1..], streamID, capacity, id);
      }
    }
  }

  class InMemoryEventStore {
    const capacity: nat
    var streams: map<Bytes, StreamBuffer>
    ghost var Repr: set<object>

    /** Rejects a size that would retain nothing. */
    static method New(capacity: int) returns (store: InMemoryEventStore?)
      ensures store != null <==> capacity > 0
      ensures store != null ==>
                && store.Valid() && fresh(store.Repr)
                && store.capacity == capacity && store.Retained() == map[]
    {
      if capacity <= 0 {
        return null;
      }
      store := new InMemoryEventStore(capacity);
    }

    constructor (capacity: nat)
      requires capacity > 0
      ensures Valid() && fresh(Repr) && this.capacity == capacity && Retained() == map[]
    {
      this.capacity := capacity;
      streams := map[];
      Repr := {this};
    }

    ghost predicate Valid()
      reads this, Repr
      ensures Valid() ==> this in Repr
    {
      && this in Repr
      && capacity > 0
      && (forall id :: id in streams ==>
            var b := streams[id];
            b in Repr && b.ring in Repr && b.ring.Length == capacity && b.Valid())
      && (forall i, j :: i in streams && j in streams && i != j ==>
            streams[i] != streams[j] && streams[i].ring != streams[j].ring)
    }

    ghost function Retained(): Histories
      requires Valid()
      reads this, Repr
    {
      map id | id in streams :: streams[id].history
    }

    method Append(streamID: Bytes, ev: Event)
      requires Valid()
      modifies Repr
      ensures Valid() && fresh(Repr - old(Repr))
      ensures Retained() == Apply(old(Retained()), AppendOp(streamID, ev))
      ensures HistoryOf(Retained(), streamID) == HistoryOf(old(Retained()), streamID) + [ev]
      ensures forall id :: id != streamID ==> HistoryOf(Retained(), id) == HistoryOf(old(Retained()), id)
    {
      hide StreamBuffer.Valid;
      if streamID !in streams {
        AddStream(streamID);
      }
      var buffer := streams[streamID];
      buffer.Append(ev);
    }

    method AddStream(streamID: Bytes)
      requires Valid() && streamID !in streams
      modifies this
      ensures Valid() && fresh(Repr - old(Repr)) && streamID in streams
      ensures Retained() == old(Retained())[streamID := []]
    {
      hide StreamBuffer.Valid;
      var added := new StreamBuffer(capacity);
      streams := streams[streamID := added];
      Repr := Repr + {added, added.ring};
    }

    method Since(streamID: Bytes, lastEventID: Bytes) returns (r: Replay)
      requires Valid()
      ensures r == Answer(Retained(), capacity, streamID, lastEventID)
      ensures r == ReplayAfter(HistoryOf(Retained(), streamID), capacity, lastEventID)
      ensures HistoryOf(Retained(), streamID) == [] ==> r == Replay([], false)
    {
      if streamID !in streams {
        return Replay([], false);
      }
      r := streams[streamID].Since(lastEventID);
    }

    method Clear(streamID: Bytes)
      requires Valid()
      modifies this
      ensures Valid() && Repr == old(Repr)
      ensures Retained() == Apply(old(Retained()), ClearOp(streamID))
      ensures HistoryOf(Retained(), streamID) == []
      ensures forall id :: id != streamID ==> HistoryOf(Retained(), id) == HistoryOf(old(Retained()), id)
    {
      hide StreamBuffer.Valid;
      streams := streams - {streamID};
    }
  }
}
