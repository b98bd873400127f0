/**
 * The queue behind the NATS and WebSocket sources (nats/source.go, ws/source.go): many
 * goroutines call Deliver and Close, one consumer calls Next, and their steps interleave.
 * A mutex guards the closed flag and stays held while a send waits for room.
 */
module SourceQueue {
  import opened Octets
  import opened Codec

  const CAPACITY := 64

  datatype Call = Deliver(event: Event) | Close

  /** Where a goroutine stands in its call. */
  datatype Thread =
    | Idle
    | Waiting(call: Call)  // at Lock
    | Holding(call: Call)  // about to look at the flag
    | Sending(event: Event)  // at the channel send
    | Closing  // flag set, about to close the channel
    | Leaving  // at Unlock

  /** An accepted event, with the goroutine that delivered it. */
  datatype Msg = Msg(producer: nat, event: Event)

  datatype State = State(
    lock: Option<nat>, closed: bool, channelClosed: bool, buffer: seq<Msg>,
    threads: map<nat, Thread>,
    calls: map<nat, seq<Event>>,  // what each goroutine has called Deliver with
    accepted: seq<Msg>, received: seq<Msg>,
    ended: bool,  // the consumer has been told there is no more
    panicked: bool)  // a send on, or a second close of, a closed channel

  const START := State(None, false, false, [], map[], map[], [], [], false, false)

  datatype Step =
    | CallDeliver(p: nat, event: Event)
    | CallClose(p: nat)
    | Acquire(p: nat)
    | CheckFlag(p: nat)
    | Send(p: nat)
    | CloseChannel(p: nat)
    | Release(p: nat)
    | Receive
    | ReceiveEnd
    | ContextDone

  function At(s: State, p: nat): Thread {
    if p in s.threads then s.threads[p] else Idle
  }

  function CallsOf(s: State, p: nat): seq<Event> {
    if p in s.calls then s.calls[p] else []
  }

  function Move(s: State, p: nat, t: Thread): State {
    s.(threads := s.threads[p := t])
  }

  /** One atomic step; `None` when the step is not enabled. */
  function Next(s: State, step: Step): Option<State> {
    match step
    case CallDeliver(p, ev) =>
      if At(s, p) != Idle then None
      else Some(Move(s, p, Waiting(Deliver(ev))).(calls := s.calls[p := CallsOf(s, p) + [ev]]))
    case CallClose(p) =>
      if At(s, p) != Idle then None else Some(Move(s, p, Waiting(Close)))
    case Acquire(p) =>
      if !At(s, p).Waiting? || s.lock.Some? then None
      else Some(Move(s, p, Holding(At(s, p).call)).(lock := Some(p)))
    case CheckFlag(p) =>
      if !At(s, p).Holding? then None
      else if s.closed then Some(Move(s, p, Leaving))
      else if At(s, p).call.Close? then Some(Move(s, p, Closing).(closed := true))
      else Some(Move(s, p, Sending(At(s, p).call.event)))
    case Send(p) =>
      if !At(s, p).Sending? then None
      else if s.channelClosed then Some(s.(panicked := true))
      else if |s.buffer| >= CAPACITY then None
      else
        var m := Msg(p, At(s, p).event);
        Some(Move(s, p, Leaving).(buffer := s.buffer + [m], accepted := s.accepted + [m]))
    case CloseChannel(p) =>
      if !At(s, p).Closing? then None
      else if s.channelClosed then Some(s.(panicked := true))
      else Some(Move(s, p, Leaving).(channelClosed := true))
    case Release(p) =>
      if !At(s, p).Leaving? then None else Some(Move(s, p, Idle).(lock := None))
    case Receive =>
      if s.buffer == [] then None
      else Some(s.(buffer := s.buffer[1..], received := s.received + [s.buffer[0]]))
    case ReceiveEnd =>
      if s.buffer != [] || !s.channelClosed then None else Some(s.(ended := true))
    case ContextDone => Some(s)
  }

  function Exec(s: State, steps: seq<Step>): Option<State>
    decreases steps
  {
    if steps == [] then Some(s) else
      var t := Next(s, steps[0]);
      if t.None? then None else Exec(t.value, steps[1..])
  }

  /** One goroutine's part of a list of messages. */
  function From(msgs: seq<Msg>, p: nat): seq<Event> {
    if msgs == [] then [] else
      var m := msgs[|msgs| - 1];
      From(msgs[..|msgs| - 1], p) + if m.producer == p then [m.event] else []
  }

  // --------------------------------------------------------------------- invariant

  predicate Inside(t: Thread) {
    t.Holding? || t.Sending? || t.Closing? || t.Leaving?
  }

  /** A delivery that is neither accepted nor dropped yet. */
  predicate Pending(t: Thread) {
    t.Sending? || ((t.Waiting? || t.Holding?) && t.call.Deliver?)
  }

  function PendingEvent(t: Thread): Event
    requires Pending(t)
  {
    if t.Sending? then t.event else t.call.event
  }

  ghost predicate LockInv(s: State) {
    && (forall p: nat :: Inside(At(s, p)) <==> s.lock == Some(p))
    && (forall p: nat :: At(s, p).Sending? ==> !s.closed)
    && (forall p: nat :: At(s, p).Closing? ==> s.closed && !s.channelClosed)
    && (s.channelClosed ==> s.closed)
    && (s.closed && !s.channelClosed ==> s.lock.Some? && At(s, s.lock.value).Closing?)
    && !s.panicked
  }

  predicate BufferInv(s: State) {
    && |s.buffer| <= CAPACITY
    && s.accepted == s.received + s.buffer
    && (s.ended ==> s.channelClosed && s.buffer == [])
  }

  /** Until the source closes, everything called is accepted but what is still pending. */
  predicate OrderInv(s: State, p: nat) {
    var calls, mine := CallsOf(s, p), From(s.accepted, p);
    && mine <= calls
    && (Pending(At(s, p)) ==> calls != [] && calls[|calls| - 1] == PendingEvent(At(s, p)))
    && (!s.closed ==> mine == if Pending(At(s, p)) then calls[..|calls| - 1] else calls)
  }

  ghost predicate Inv(s: State) {
    LockInv(s) && BufferInv(s) && forall p: nat :: OrderInv(s, p)
  }

  lemma FromSnoc(msgs: seq<Msg>, m: Msg, p: nat)
    ensures From(msgs + [m], p) == if m.producer == p then From(msgs, p) + [m.event] else From(msgs, p)
  {
  }

  lemma StepKeepsLock(s: State, step: Step)
    requires LockInv(s) && Next(s, step).Some?
    ensures LockInv(Next(s, step).value)
  {
  }

  lemma StepKeepsBuffer(s: State, step: Step)
    requires LockInv(s) && BufferInv(s) && Next(s, step).Some?
    ensures BufferInv(Next(s, step).value)
  {
  }

  lemma SendKeepsOrder(s: State, q: nat, p: nat)
    requires LockInv(s) && OrderInv(s, p) && Next(s, Send(q)).Some?
    ensures OrderInv(Next(s, Send(q)).value, p)
  {
    hide From;
    FromSnoc(s.accepted, Msg(q, At(s, q).event), p);
    assert !s.channelClosed;
    if q == p {
      var calls := CallsOf(s, p);
      assert calls == calls[..|calls| - 1] + [calls[|calls| - 1]];
    }
  }

  lemma CallKeepsOrder(s: State, q: nat, ev: Event, p: nat)
    requires OrderInv(s, p) && Next(s, CallDeliver(q, ev)).Some?
    ensures OrderInv(Next(s, CallDeliver(q, ev)).value, p)
  {
  }

  lemma {:induction false} StepKeepsOrder(s: State, step: Step, p: nat)
    requires LockInv(s) && OrderInv(s, p) && Next(s, step).Some?
    ensures OrderInv(Next(s, step).value, p)
  {
    hide From;
    match step
    case Send(q) => SendKeepsOrder(s, q, p);
    case CallDeliver(q, ev) => CallKeepsOrder(s, q, ev, p);
    case _ =>
  }

  lemma StartHolds()
    ensures Inv(START)
  {
  }

  lemma {:induction false} RunKeepsInv(s: State, steps: seq<Step>)
    requires Inv(s) && Exec(s, steps).Some?
    ensures Inv(Exec(s, steps).value)
    decreases steps
  {
    if steps != [] {
      var t := Next(s, steps[0]).value;
      StepKeepsLock(s, steps[0]);
      StepKeepsBuffer(s, steps[0]);
      forall p: nat ensures OrderInv(t, p) {
        StepKeepsOrder(s, steps[0], p);
      }
      RunKeepsInv(t, steps[1..]);
    }
  }

  // ------------------------------------------------------------------------- safety

  lemma {:induction false} FromAppend(a: seq<Msg>, b: seq<Msg>, p: nat)
    ensures From(a + b, p) == From(a, p) + From(b, p)
  {
    if b == [] {
      assert a + b == a;
    } else {
      hide From;
      var c, m := b[..|b| - 1], b[|b| - 1];
      FromAppend(a, c, p);
      FromSnoc(a + c, m, p);
      FromSnoc(c, m, p);
      Assoc(a, c, [m]);
      assert c + [m] == b;
      Assoc(From(a, p), From(c, p), [m.event]);
    }
  }

  /**
   * In every interleaving: accepted events are the received ones followed by the buffered
   * ones, the buffer stays within its size, nothing is sent on or closes a closed
   * channel, at most one goroutine is between Lock and Unlock, what the consumer gets from
   * one goroutine is a first part of what that goroutine delivered, in order, and end of
   * stream is reported only when everything accepted has been received.
   */
  lemma QueueSafety(steps: seq<Step>)
    requires Exec(START, steps).Some?
    ensures
      var s := Exec(START, steps).value;
      && s.accepted == s.received + s.buffer
      && |s.buffer| <= 64
      && !s.panicked
      && (forall p: nat, q: nat :: Inside(At(s, p)) && Inside(At(s, q)) ==> p == q)
      && (forall p: nat :: From(s.received, p) <= From(s.accepted, p) <= CallsOf(s, p))
      && (s.ended ==> s.closed && s.channelClosed && s.received == s.accepted)
  {
    hide Exec, OrderInv;
    StartHolds();
    RunKeepsInv(START, steps);
    var s := Exec(START, steps).value;
    forall p: nat ensures From(s.received, p) <= From(s.accepted, p) <= CallsOf(s, p) {
      FromAppend(s.received, s.buffer, p);
      OrderIsPrefix(s, p);
    }
    assert s.ended ==> s.received + [] == s.received;
  }

  lemma OrderIsPrefix(s: State, p: nat)
    requires OrderInv(s, p)
    ensures From(s.accepted, p) <= CallsOf(s, p)
  {
  }

  /** Nothing delivered is lost while the source is open: all is accepted but the pending one. */
  lemma NothingLostWhileOpen(steps: seq<Step>, p: nat)
    requires Exec(START, steps).Some? && !Exec(START, steps).value.closed
    ensures
      var s := Exec(START, steps).value;
      |From(s.accepted, p)| == |CallsOf(s, p)| - if Pending(At(s, p)) then 1 else 0
  {
    hide Exec, From;
    StartHolds();
    RunKeepsInv(START, steps);
    var s := Exec(START, steps).value;
    assert OrderInv(s, p);
  }

  /** Once the channel is closed, the accepted events are fixed. */
  lemma {:induction false} ClosedAcceptsNothing(s: State, steps: seq<Step>)
    requires Inv(s) && s.channelClosed && Exec(s, steps).Some?
    ensures
      var t := Exec(s, steps).value;
      t.channelClosed && t.accepted == s.accepted && (s.ended ==> t.received == s.received)
    decreases steps
  {
    if steps != [] {
      var one := [steps[0]];
      var t := Next(s, steps[0]).value;
      assert one[1..] == [] && Exec(s, one) == Some(t);
      RunKeepsInv(s, one);
      ClosedAcceptsNothing(t, steps[1..]);
    }
  }

  // ----------------------------------------------------------------------- progress

  /** What the lock holder does next, waiting for the consumer at most once. */
  function WayOut(s: State, p: nat): seq<Step> {
    match At(s, p)
    case Leaving => [Release(p)]
    case Closing => [CloseChannel(p), Release(p)]
    case Sending(_) => (if |s.buffer| >= CAPACITY then [Receive] else []) + [Send(p), Release(p)]
    case Holding(call) =>
      if s.closed then [CheckFlag(p), Release(p)]
      else if call.Close? then [CheckFlag(p), CloseChannel(p), Release(p)]
      else [CheckFlag(p)] + (if |s.buffer| >= CAPACITY then [Receive] else []) + [Send(p), Release(p)]
    case _ => []
  }

  lemma ExecCons(s: State, step: Step, rest: seq<Step>)
    requires Next(s, step).Some?
    ensures Exec(s, [step] + rest) == Exec(Next(s, step).value, rest)
  {
  }

  lemma SendAndLeave(s: State, p: nat)
    requires Inv(s) && At(s, p).Sending?
    ensures
      var t := Exec(s, (if |s.buffer| >= CAPACITY then [Receive] else []) + [Send(p), Release(p)]);
      t.Some? && t.value.lock == None
  {
    var u := if |s.buffer| >= CAPACITY then Next(s, Receive).value else s;
    var v := Next(u, Send(p)).value;
    var w := Next(v, Release(p)).value;
    assert w.lock == None;
    assert [Send(p), Release(p)] == [Send(p)] + ([Release(p)] + []);
    ExecCons(v, Release(p), []);
    ExecCons(u, Send(p), [Release(p)] + []);
    if |s.buffer| >= CAPACITY {
      ExecCons(s, Receive, [Send(p), Release(p)]);
    } else {
      assert [] + [Send(p), Release(p)] == [Send(p), Release(p)];
    }
  }

  /**
   * Whoever holds the lock gets out with its own steps and at most one Receive, so a
   * consumer that keeps calling Next re-enables every blocked sender and a waiting Close.
   */
  lemma LockIsReleased(s: State, p: nat)
    requires Inv(s) && s.lock == Some(p)
    ensures Exec(s, WayOut(s, p)).Some? && Exec(s, WayOut(s, p)).value.lock == None
  {
    assert Inside(At(s, p));
    match At(s, p)
    case Leaving =>
      assert [Release(p)] == [Release(p)] + [];
      ExecCons(s, Release(p), []);
    case Closing =>
      CloseAndLeave(s, p);
    case Sending(_) =>
      SendAndLeave(s, p);
    case Holding(call) =>
      var t := Next(s, CheckFlag(p)).value;
      var one := [CheckFlag(p)];
      assert Exec(s, one) == Some(t) by {
        assert one == one + [];
        ExecCons(s, CheckFlag(p), []);
      }
      RunKeepsInv(s, one);
      if s.closed {
        ExecCons(s, CheckFlag(p), [Release(p)]);
        assert [Release(p)] == [Release(p)] + [];
        ExecCons(t, Release(p), []);
        assert WayOut(s, p) == [CheckFlag(p)] + [Release(p)];
      } else if call.Close? {
        CloseAndLeave(t, p);
        ExecCons(s, CheckFlag(p), [CloseChannel(p), Release(p)]);
        assert WayOut(s, p) == [CheckFlag(p)] + [CloseChannel(p), Release(p)];
      } else {
        SendAndLeave(t, p);
        var rest := (if |s.buffer| >= CAPACITY then [Receive] else []) + [Send(p), Release(p)];
        ExecCons(s, CheckFlag(p), rest);
        assert WayOut(s, p) == [CheckFlag(p)] + rest;
      }
  }

  lemma CloseAndLeave(s: State, p: nat)
    requires Inv(s) && At(s, p).Closing?
    ensures
      var t := Exec(s, [CloseChannel(p), Release(p)]);
      t.Some? && t.value.lock == None
  {
    var u := Next(s, CloseChannel(p)).value;
    assert [CloseChannel(p), Release(p)] == [CloseChannel(p)] + ([Release(p)] + []);
    ExecCons(s, CloseChannel(p), [Release(p)] + []);
    ExecCons(u, Release(p), []);
  }

  /** A goroutine that holds the lock and cannot move waits for room, and only for that. */
  lemma BlockedHolderMeansFullBuffer(s: State, p: nat)
    requires Inv(s) && s.lock == Some(p)
    requires forall step :: step in [CheckFlag(p), Send(p), CloseChannel(p), Release(p)] ==> Next(s, step).None?
    ensures At(s, p).Sending? && |s.buffer| == CAPACITY
    ensures Next(s, Receive).Some? && Next(Next(s, Receive).value, Send(p)).Some?
  {
    assert Inside(At(s, p));
    assert Next(s, CheckFlag(p)).None? && Next(s, CloseChannel(p)).None?
           && Next(s, Release(p)).None? && Next(s, Send(p)).None?;
  }

  // ------------------------------------------------- every schedule, not one of them

  /** The goroutine whose step it is. */
  function Mover(step: Step): Option<nat> {
    match step
    case CallDeliver(p, _) => Some(p)
    case CallClose(p) => Some(p)
    case Acquire(p) => Some(p)
    case CheckFlag(p) => Some(p)
    case Send(p) => Some(p)
    case CloseChannel(p) => Some(p)
    case Release(p) => Some(p)
    case _ => None
  }

  /** The one step a lock holder can take. */
  function OwnStep(s: State, p: nat): Step {
    match At(s, p)
    case Holding(_) => CheckFlag(p)
    case Sending(_) => Send(p)
    case Closing => CloseChannel(p)
    case _ => Release(p)
  }

  /** How many steps of its own a holder is from the unlocked lock, at most. */
  function OwnLeft(s: State, p: nat): nat {
    match At(s, p)
    case Holding(_) => 3
    case Sending(_) => 2
    case Closing => 2
    case _ => 1
  }

  function OwnTaken(steps: seq<Step>, p: nat): nat {
    if steps == [] then 0 else (if Mover(steps[0]) == Some(p) then 1 else 0) + OwnTaken(steps[1..], p)
  }

  /** Others neither move a holder, nor take its lock, nor disable its step. */
  lemma OthersLeaveHolder(s: State, p: nat, step: Step)
    requires Inv(s) && s.lock == Some(p) && Next(s, step).Some? && Mover(step) != Some(p)
    ensures
      var t := Next(s, step).value;
      && t.lock == Some(p) && At(t, p) == At(s, p) && OwnStep(t, p) == OwnStep(s, p)
      && (Next(s, OwnStep(s, p)).Some? || step == Receive ==> Next(t, OwnStep(t, p)).Some?)
  {
    hide From, OrderInv;
    assert Inside(At(s, p));
    StepKeepsLock(s, step);
  }

  lemma InvAfter(s: State, step: Step)
    requires Inv(s) && Next(s, step).Some?
    ensures Inv(Next(s, step).value)
  {
    hide OrderInv;
    var one := [step];
    assert one == one + [];
    ExecCons(s, step, []);
    RunKeepsInv(s, one);
  }

  /**
   * In every schedule: until a lock holder takes its next step, nobody else disables that
   * step once it is enabled, and any one Receive enables it for good.
   */
  lemma {:induction false} HolderStaysReady(s: State, p: nat, steps: seq<Step>)
    requires Inv(s) && s.lock == Some(p) && Exec(s, steps).Some? && OwnTaken(steps, p) == 0
    requires Next(s, OwnStep(s, p)).Some? || Receive in steps
    ensures
      var t := Exec(s, steps).value;
      t.lock == Some(p) && At(t, p) == At(s, p) && Next(t, OwnStep(t, p)).Some?
    decreases steps
  {
    hide Inv, OwnStep, Next;
    if steps != [] {
      var t := Next(s, steps[0]).value;
      OthersLeaveHolder(s, p, steps[0]);
      InvAfter(s, steps[0]);
      HolderStaysReady(t, p, steps[1..]);
    }
  }

  /** A step of the holder's own unlocks the lock or brings it nearer to that. */
  lemma OwnStepCounts(s: State, p: nat, step: Step)
    requires Inv(s) && s.lock == Some(p) && Next(s, step).Some? && Mover(step) == Some(p)
    ensures
      var t := Next(s, step).value;
      step == OwnStep(s, p) && (t.lock == None || (t.lock == Some(p) && OwnLeft(t, p) < OwnLeft(s, p)))
  {
    hide From, OrderInv;
    assert Inside(At(s, p));
  }

  /**
   * And in every schedule the lock is unlocked by the time its holder has taken three
   * steps of its own, fewer when it has come further.
   */
  lemma {:induction false} HolderUnlocks(s: State, p: nat, steps: seq<Step>) returns (k: nat)
    requires Inv(s) && s.lock == Some(p) && Exec(s, steps).Some? && OwnTaken(steps, p) >= OwnLeft(s, p)
    ensures k <= |steps| && Exec(s, steps[..k]).Some? && Exec(s, steps[..k]).value.lock == None
    decreases steps
  {
    hide Inv, OwnStep, OwnLeft, Next;
    assert OwnLeft(s, p) > 0 by { SomeLeft(s, p); }
    var step, rest := steps[0], steps[1..];
    var t := Next(s, step).value;
    InvAfter(s, step);
    if Mover(step) == Some(p) {
      OwnStepCounts(s, p, step);
    } else {
      OthersLeaveHolder(s, p, step);
      SameLeft(s, t, p);
    }
    if t.lock == None {
      k := 1;
      assert steps[..1] == [step] + [];
      ExecCons(s, step, []);
    } else {
      var j := HolderUnlocks(t, p, rest);
      k := j + 1;
      assert steps[..k] == [step] + rest[..j];
      ExecCons(s, step, rest[..j]);
    }
  }

  lemma SomeLeft(s: State, p: nat)
    ensures OwnLeft(s, p) > 0
  {
  }

  lemma SameLeft(s: State, t: State, p: nat)
    requires At(s, p) == At(t, p)
    ensures OwnLeft(s, p) == OwnLeft(t, p)
  {
  }

  // ------------------------------------------------------- a Close without a consumer

  /** The buffer is full, and the lock is held by a delivery on an open source. */
  predicate Jammed(s: State) {
    && |s.buffer| == CAPACITY && !s.closed && s.lock.Some?
    && var t := At(s, s.lock.value);
       t.Sending? || (t.Holding? && t.call.Deliver?)
  }

  lemma JamStepStays(s: State, step: Step)
    requires Inv(s) && Jammed(s) && step != Receive && Next(s, step).Some?
    ensures
      var t := Next(s, step).value;
      && Jammed(t) && t.buffer == s.buffer && t.lock == s.lock
      && (At(s, s.lock.value).Sending? ==> At(t, s.lock.value) == At(s, s.lock.value))
      && forall q: nat :: At(s, q).Waiting? ==> At(t, q) == At(s, q)
  {
    hide From, OrderInv;
  }

  /**
   * Without the consumer a jam stays: no step but Receive ends it, the lock is not let go,
   * and whoever waits for the lock, with a Close or a Deliver, goes on waiting.
   */
  lemma {:induction false} StuckWithoutConsumer(s: State, steps: seq<Step>)
    requires Inv(s) && Jammed(s) && Receive !in steps && Exec(s, steps).Some?
    ensures
      var t := Exec(s, steps).value;
      && Jammed(t) && t.buffer == s.buffer && t.lock == s.lock && !t.closed
      && (At(s, s.lock.value).Sending? ==> At(t, s.lock.value) == At(s, s.lock.value))
      && forall q: nat :: At(s, q).Waiting? ==> At(t, q) == At(s, q)
    decreases steps
  {
    hide Inv, Next;
    if steps == [] {
      assert !s.closed;
    } else {
      var t := Next(s, steps[0]).value;
      assert steps[0] in steps;
      JamStepStays(s, steps[0]);
      InvAfter(s, steps[0]);
      StuckWithoutConsumer(t, steps[1..]);
    }
  }

  lemma {:induction false} ExecAppend(s: State, a: seq<Step>, b: seq<Step>)
    requires Exec(s, a).Some?
    ensures Exec(s, a + b) == Exec(Exec(s, a).value, b)
    decreases a
  {
    hide Next;
    if a == [] {
      assert a + b == b;
    } else {
      assert (a + b)[0] == a[0] && (a + b)[1..] == a[1..] + b;
      ExecAppend(Next(s, a[0]).value, a[1..], b);
    }
  }

  lemma OtherStays(s: State, step: Step, q: nat)
    requires Next(s, step).Some? && Mover(step) != Some(q)
    ensures At(Next(s, step).value, q) == At(s, q)
  {
  }

  lemma {:induction false} OthersStay(s: State, steps: seq<Step>, q: nat)
    requires Exec(s, steps).Some? && OwnTaken(steps, q) == 0
    ensures At(Exec(s, steps).value, q) == At(s, q)
    decreases steps
  {
    hide Next, At;
    if steps != [] {
      OtherStays(s, steps[0], q);
      OthersStay(Next(s, steps[0]).value, steps[1..], q);
    }
  }

  lemma {:induction false} NoneTaken(steps: seq<Step>, q: nat)
    requires forall step :: step in steps ==> Mover(step) != Some(q)
    ensures OwnTaken(steps, q) == 0
  {
    if steps != [] {
      NoneTaken(steps[1..], q);
    }
  }

  lemma WayOutIsOwn(s: State, p: nat, q: nat)
    requires p != q
    ensures OwnTaken(WayOut(s, p), q) == 0
  {
    NoneTaken(WayOut(s, p), q);
  }

  /** The holder needs the consumer exactly when it is jammed. */
  lemma WayOutNeedsReceiveIff(s: State, p: nat)
    requires Inv(s) && s.lock == Some(p)
    ensures Receive in WayOut(s, p) <==> Jammed(s)
  {
    hide OrderInv;
    assert Inside(At(s, p));
  }

  function CloseSteps(s: State, c: nat): seq<Step> {
    if s.closed then [Acquire(c), CheckFlag(c), Release(c)]
    else [Acquire(c), CheckFlag(c), CloseChannel(c), Release(c)]
  }

  lemma CloseWhenUnlocked(s: State, c: nat)
    requires Inv(s) && s.lock == None && At(s, c) == Waiting(Close)
    ensures
      var t := Exec(s, CloseSteps(s, c));
      t.Some? && At(t.value, c) == Idle && t.value.channelClosed
  {
    hide OrderInv, From;
    var t := Next(s, Acquire(c)).value;
    var u := Next(t, CheckFlag(c)).value;
    if s.closed {
      ExecThree(s, Acquire(c), CheckFlag(c), [Release(c)]);
      ExecOne(u, Release(c));
    } else {
      ExecThree(s, Acquire(c), CheckFlag(c), [CloseChannel(c), Release(c)]);
      assert [CloseChannel(c), Release(c)] == [CloseChannel(c)] + [Release(c)];
      ExecCons(u, CloseChannel(c), [Release(c)]);
      ExecOne(Next(u, CloseChannel(c)).value, Release(c));
      assert CloseSteps(s, c) == [Acquire(c), CheckFlag(c)] + [CloseChannel(c), Release(c)];
    }
    assert s.closed ==> CloseSteps(s, c) == [Acquire(c), CheckFlag(c)] + [Release(c)];
  }

  lemma ExecOne(s: State, a: Step)
    ensures Exec(s, [a]) == Next(s, a)
  {
    assert [a][1..] == [];
  }

  lemma ExecThree(s: State, a: Step, b: Step, rest: seq<Step>)
    requires Next(s, a).Some? && Next(Next(s, a).value, b).Some?
    ensures Exec(s, [a, b] + rest) == Exec(Next(Next(s, a).value, b).value, rest)
  {
    hide Next;
    assert [a, b] + rest == [a] + ([b] + rest);
    ExecCons(s, a, [b] + rest);
    ExecCons(Next(s, a).value, b, rest);
  }

  /**
   * A Close at the lock can return without the consumer if and only if the source is not
   * jammed: a full buffer alone does not block it.
   */
  lemma CloseGetsThroughIff(s: State, c: nat)
    requires Inv(s) && At(s, c) == Waiting(Close)
    ensures !Jammed(s) <==>
              exists steps :: Receive !in steps && Exec(s, steps).Some? && At(Exec(s, steps).value, c) == Idle
  {
    hide Inv, Exec, WayOut, CloseSteps;
    if Jammed(s) {
      forall steps | Receive !in steps && Exec(s, steps).Some?
        ensures At(Exec(s, steps).value, c) != Idle
      {
        StuckWithoutConsumer(s, steps);
      }
    } else {
      var out: seq<Step> := LetGo(s, c);
      var t := Exec(s, out).value;
      RunKeepsInv(s, out);
      CloseWhenUnlocked(t, c);
      ExecAppend(s, out, CloseSteps(t, c));
      assert Receive !in CloseSteps(t, c) by { NoReceiveToClose(t, c); }
      var steps := out + CloseSteps(t, c);
      assert Receive !in steps && Exec(s, steps).Some? && At(Exec(s, steps).value, c) == Idle;
    }
  }

  lemma NoReceiveToClose(s: State, c: nat)
    ensures Receive !in CloseSteps(s, c)
  {
  }

  /** Without a jam the lock comes free, with no Receive and no step of `c`. */
  lemma LetGo(s: State, c: nat) returns (steps: seq<Step>)
    requires Inv(s) && !Jammed(s) && At(s, c) == Waiting(Close)
    ensures Receive !in steps && Exec(s, steps).Some?
    ensures var t := Exec(s, steps).value; t.lock == None && At(t, c) == Waiting(Close)
  {
    hide OrderInv, Exec, WayOut, Next;
    steps := [];
    if s.lock.Some? {
      var p := s.lock.value;
      assert Inside(At(s, p));
      steps := WayOut(s, p);
      LockIsReleased(s, p);
      WayOutNeedsReceiveIff(s, p);
      WayOutIsOwn(s, p, c);
      OthersStay(s, steps, c);
    } else {
      NoSteps(s);
    }
  }

  lemma NoSteps(s: State)
    ensures Exec(s, []) == Some(s)
  {
  }

  /** One whole Deliver call. */
  function DeliverSteps(p: nat, ev: Event): seq<Step> {
    [CallDeliver(p, ev), Acquire(p), CheckFlag(p), Send(p), Release(p)]
  }

  function DeliverMany(p: nat, ev: Event, n: nat): seq<Step> {
    if n == 0 then [] else DeliverMany(p, ev, n - 1) + DeliverSteps(p, ev)
  }

  /** An open source between calls, with `n` events in its buffer. */
  ghost predicate Filled(s: State, n: nat) {
    s.lock == None && !s.closed && !s.channelClosed && |s.buffer| == n && forall q: nat :: At(s, q) == Idle
  }

  lemma DeliverFills(s: State, p: nat, ev: Event, n: nat)
    requires Filled(s, n) && n < CAPACITY
    ensures
      var t := Exec(s, DeliverSteps(p, ev));
      t.Some? && Filled(t.value, n + 1)
  {
    var t := Next(s, CallDeliver(p, ev)).value;
    var u := Next(t, Acquire(p)).value;
    var v := Next(u, CheckFlag(p)).value;
    var w := Next(v, Send(p)).value;
    ExecThree(s, CallDeliver(p, ev), Acquire(p), [CheckFlag(p), Send(p)] + [Release(p)]);
    ExecThree(u, CheckFlag(p), Send(p), [Release(p)]);
    ExecOne(w, Release(p));
    assert DeliverSteps(p, ev) == [CallDeliver(p, ev), Acquire(p)] + ([CheckFlag(p), Send(p)] + [Release(p)]);
    forall q: nat ensures At(Next(w, Release(p)).value, q) == Idle {
      if q != p {
        NoneTaken(DeliverSteps(p, ev), q);
        OthersStay(s, DeliverSteps(p, ev), q);
      }
    }
  }

  lemma {:induction false} DeliverManyFills(p: nat, ev: Event, n: nat)
    requires n <= CAPACITY
    ensures
      var t := Exec(START, DeliverMany(p, ev, n));
      t.Some? && Filled(t.value, n)
  {
    if n > 0 {
      hide Exec, DeliverSteps, Filled;
      DeliverManyFills(p, ev, n - 1);
      var t := Exec(START, DeliverMany(p, ev, n - 1)).value;
      DeliverFills(t, p, ev, n - 1);
      ExecAppend(START, DeliverMany(p, ev, n - 1), DeliverSteps(p, ev));
    }
  }

  /** 64 events delivered, a 65th inside Deliver, and a Close at the lock: jammed. */
  lemma JamIsReachable(ev: Event) returns (steps: seq<Step>)
    ensures Exec(START, steps).Some?
    ensures var s := Exec(START, steps).value; Jammed(s) && |s.buffer| == 64 && At(s, 1) == Waiting(Close)
  {
    DeliverManyFills(0, ev, CAPACITY);
    var filling := DeliverMany(0, ev, CAPACITY);
    hide DeliverMany;
    var s := Exec(START, filling).value;
    assert At(s, 0) == Idle && At(s, 1) == Idle;
    var t := Next(s, CallDeliver(0, ev)).value;
    var u := Next(t, Acquire(0)).value;
    var v := Next(u, CheckFlag(0)).value;
    ExecThree(s, CallDeliver(0, ev), Acquire(0), [CheckFlag(0), CallClose(1)] + []);
    ExecThree(u, CheckFlag(0), CallClose(1), []);
    var more := [CallDeliver(0, ev), Acquire(0)] + ([CheckFlag(0), CallClose(1)] + []);
    ExecAppend(START, filling, more);
    steps := filling + more;
  }

  function Drain(n: nat): seq<Step> {
    if n == 0 then [ReceiveEnd] else [Receive] + Drain(n - 1)
  }

  /** Close and drain: after the buffered events, each once and in order, the end. */
  lemma {:induction false} DrainReachesEnd(s: State)
    requires Inv(s) && s.channelClosed
    ensures
      var t := Exec(s, Drain(|s.buffer|));
      t.Some? && t.value.ended && t.value.received == s.received + s.buffer == s.accepted
    decreases |s.buffer|
  {
    if s.buffer == [] {
      assert [ReceiveEnd] == [ReceiveEnd] + [];
      ExecCons(s, ReceiveEnd, []);
      assert s.received + [] == s.received;
    } else {
      var t := Next(s, Receive).value;
      var one := [Receive];
      assert one[1..] == [] && Exec(s, one) == Some(t);
      RunKeepsInv(s, one);
      ExecCons(s, Receive, Drain(|t.buffer|));
      DrainReachesEnd(t);
      Assoc(s.received, [s.buffer[0]], s.buffer[1..]);
      assert [s.buffer[0]] + s.buffer[1..] == s.buffer;
    }
  }
}
