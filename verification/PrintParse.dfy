/** What the printer writes, the standard reads back: frames, comments and retries. */
module PrintParse {
  import opened Octets
  import opened LineScanner
  import opened Codec
  import opened EventStream

  datatype Frame =
    | EventFrame(event: Event)
    | CommentFrame(text: Bytes)
    | RetryFrame(delay: Int64)

  /** The bytes of one frame, as the codec renders it. */
  function Render(frame: Frame): Bytes {
    match frame
    case EventFrame(ev) => FrameText(ev)
    case CommentFrame(text) => FrameComment(text)
    case RetryFrame(d) => FrameRetry(d)
  }

  function RenderAll(frames: seq<Frame>): Bytes {
    if frames == [] then [] else Render(frames[0]) + RenderAll(frames[1..])
  }

  // ----------------------------------------------------------- what is expected

  /** The id a receiver holds after a frame. */
  function IdAfter(prior: Bytes, frame: Frame): Bytes {
    if frame.EventFrame? && frame.event.id != [] then SanitizeFieldValue(frame.event.id) else prior
  }

  /** One event per event frame; comments and retries deliver nothing. */
  function Expected(frames: seq<Frame>, prior: Bytes): seq<Event> {
    if frames == [] then [] else
      var id := IdAfter(prior, frames[0]);
      var rest := Expected(frames[1..], id);
      match frames[0]
      case EventFrame(ev) => [Event(id, SanitizeFieldValue(ev.event), Normalize(ev.data))] + rest
      case _ => rest
  }

  /** The last delay asked for, clamped at zero and cut to whole milliseconds. */
  function ExpectedRetry(frames: seq<Frame>, prior: int): int
    decreases frames
  {
    if frames == [] then prior
    else if frames[0].RetryFrame? then
      ExpectedRetry(frames[1..], ClampedMillis(frames[0].delay) * NANOS_PER_MILLI)
    else ExpectedRetry(frames[1..], prior)
  }

  // ---------------------------------------------------------- frames, as lines

  function FrameBody(frame: Frame): seq<Bytes> {
    match frame
    case EventFrame(ev) => WireFields(ev)
    case CommentFrame(text) => [CommentLine(text)]
    case RetryFrame(d) => [RetryLine(d)]
  }

  /** A frame's lines; a comment brings no blank line of its own. */
  function FrameToLines(frame: Frame): seq<Bytes> {
    if frame.CommentFrame? then FrameBody(frame) else FrameBody(frame) + [[]]
  }

  function AllLines(frames: seq<Frame>): seq<Bytes> {
    if frames == [] then [] else FrameToLines(frames[0]) + AllLines(frames[1..])
  }

  lemma RenderIsUnlines(frame: Frame)
    ensures Render(frame) == Unlines(FrameToLines(frame))
  {
    var none: seq<Bytes> := [];
    assert forall x: Bytes :: [] + x == x;
    match frame
    case EventFrame(_) =>
    case CommentFrame(text) =>
      UnlinesSnoc(none, CommentLine(text));
      assert none + [CommentLine(text)] == FrameToLines(frame);
    case RetryFrame(d) =>
      UnlinesSnoc(none, RetryLine(d));
      assert none + [RetryLine(d)] == [RetryLine(d)];
      UnlinesSnoc([RetryLine(d)], []);
  }

  lemma FrameLinesFit(frame: Frame)
    ensures forall k :: 0 <= k < |FrameToLines(frame)| ==> OneLine(FrameToLines(frame)[k])
    ensures NoBlank(FrameBody(frame))
    ensures FrameBody(frame) != []
    ensures IsASCII(FrameBody(frame)[0][0])
  {
    hide SplitPayloadLines, SanitizeFieldValue, FormatNat;
    match frame
    case EventFrame(ev) =>
      EventLinesFit(ev);
    case CommentFrame(text) =>
      CleanFieldFits([], text);
      assert CommentLine(text) == Field([], SanitizeFieldValue(text));
    case RetryFrame(_) =>
  }

  lemma EventLinesFit(ev: Event)
    ensures forall k :: 0 <= k < |WireFields(ev)| ==> OneLine(WireFields(ev)[k])
    ensures forall k :: 0 <= k < |WireFields(ev)| ==> WireFields(ev)[k] != [] && IsASCII(WireFields(ev)[k][0])
    ensures WireFields(ev) != []
  {
    hide SplitPayloadLines, SanitizeFieldValue;
    PayloadLinesFit(ev.data);
    CleanFieldFits(FIELD_ID, ev.id);
    CleanFieldFits(FIELD_EVENT, ev.event);
    assert SplitPayloadLines(ev.data) != [] by {
      JoinedPayload(ev.data);
    }
    var i, e, d := IdFields(ev), EventFields(ev), DataFields(SplitPayloadLines(ev.data));
    assert forall k :: 0 <= k < |d| ==> OneLine(d[k]);
  }

  lemma CleanFieldFits(name: Bytes, value: Bytes)
    requires OneLine(name)
    ensures OneLine(Field(name, SanitizeFieldValue(value)))
  {
    var clean := SanitizeFieldValue(value);
    assert forall k :: 0 <= k < |clean| ==> clean[k] in clean;
  }

  predicate IsASCII(c: Byte) {
    c < '\U{80}'
  }

  lemma {:induction false} LinesOfUnlines(lines: seq<Bytes>, rest: Bytes)
    requires forall k :: 0 <= k < |lines| ==> OneLine(lines[k])
    ensures Lines(Unlines(lines) + rest) == lines + Lines(rest)
  {
    if lines == [] {
      assert Unlines(lines) + rest == rest;
    } else {
      var line, tail := lines[0], Unlines(lines[1..]) + rest;
      var all := line + [LF] + tail;
      LinesOfUnlines(lines[1..], rest);
      LinesUpToBreak(all, |line|);
      assert all[..|line|] == line && all[|line| + 1..] == tail;
      Assoc(line + [LF], Unlines(lines[1..]), rest);
      Assoc([line], lines[1..], Lines(rest));
      assert [line] + lines[1..] == lines;
    }
  }

  lemma {:induction false} RenderedLines(frames: seq<Frame>)
    ensures Lines(RenderAll(frames)) == AllLines(frames)
  {
    if frames != [] {
      RenderedLines(frames[1..]);
      RenderIsUnlines(frames[0]);
      FrameLinesFit(frames[0]);
      LinesOfUnlines(FrameToLines(frames[0]), RenderAll(frames[1..]));
    }
  }

  /** Every frame starts with an ASCII letter or a colon, so nothing is taken for a mark. */
  lemma {:induction false} RenderedHasNoBOM(frames: seq<Frame>)
    ensures StripBOM(RenderAll(frames)) == RenderAll(frames)
  {
    var s := RenderAll(frames);
    if |s| >= 3 {
      hide SplitPayloadLines, SanitizeFieldValue, Normalize, FrameBody;
      var frame := frames[0];
      RenderIsUnlines(frame);
      FrameLinesFit(frame);
      assert FrameToLines(frame)[0] == FrameBody(frame)[0];
      assert s[0] == FrameBody(frame)[0][0];
      assert s[..3][0] == s[0] && BOM[0] == '\U{EF}';
    }
  }

  // -------------------------------------------------------- reading the fields

  lemma ReadField(name: Bytes, value: Bytes)
    requires name != [] && COLON !in name
    ensures !IsComment(Field(name, value)) && ParseFieldLine(Field(name, value)) == (name, value)
  {
    FieldLineShapes(name, value);
    assert Field(name, value)[0] == name[0] && name[0] in name;
  }

  predicate AllComments(lines: seq<Bytes>) {
    forall k :: 0 <= k < |lines| ==> IsComment(lines[k])
  }

  lemma {:induction false} ReadComments(lines: seq<Bytes>, prior: Bytes)
    requires AllComments(lines)
    ensures DataValues(lines) == [] && LastType(lines) == [] && LastId(prior, lines) == prior
  {
    if lines != [] {
      ReadComments(lines[..|lines| - 1], prior);
    }
  }

  lemma {:induction false} ReadDataFields(head: seq<Bytes>, lines: seq<Bytes>, prior: Bytes)
    ensures
      var group := head + DataFields(lines);
      && DataValues(group) == DataValues(head) + lines
      && LastType(group) == LastType(head)
      && LastId(prior, group) == LastId(prior, head)
    decreases lines
  {
    hide DataValues, LastType, LastId, ParseFieldLine;
    if lines == [] {
      assert head + DataFields(lines) == head;
    } else {
      var field := Field(FIELD_DATA, lines[0]);
      ReadField(FIELD_DATA, lines[0]);
      ReadOneMore(head, field, prior);
      ReadDataFields(head + [field], lines[1..], prior);
      Assoc(head, [field], DataFields(lines[1..]));
      Assoc(DataValues(head), [lines[0]], lines[1..]);
      assert lines == [lines[0]] + lines[1..];
    }
  }

  lemma ReadIdFields(head: seq<Bytes>, ev: Event, prior: Bytes)
    ensures
      var group := head + IdFields(ev);
      && DataValues(group) == DataValues(head)
      && LastType(group) == LastType(head)
      && LastId(prior, group) == if ev.id != [] then SanitizeFieldValue(ev.id) else LastId(prior, head)
  {
    hide DataValues, LastType, LastId, ParseFieldLine;
    var id := SanitizeFieldValue(ev.id);
    ReadField(FIELD_ID, id);
    ReadOneMore(head, Field(FIELD_ID, id), prior);
    assert head + [] == head && NUL !in id;
  }

  lemma ReadEventFields(head: seq<Bytes>, ev: Event, prior: Bytes)
    ensures
      var group := head + EventFields(ev);
      && DataValues(group) == DataValues(head)
      && LastType(group) == (if ev.event != [] then SanitizeFieldValue(ev.event) else LastType(head))
      && LastId(prior, group) == LastId(prior, head)
  {
    hide DataValues, LastType, LastId, ParseFieldLine;
    var kind := SanitizeFieldValue(ev.event);
    ReadField(FIELD_EVENT, kind);
    ReadOneMore(head, Field(FIELD_EVENT, kind), prior);
    assert head + [] == head;
  }

  /** The group of one event frame, with the comments written before it. */
  lemma {:induction false} ReadEventGroup(comments: seq<Bytes>, ev: Event, prior: Bytes)
    requires AllComments(comments)
    ensures
      var group := comments + WireFields(ev);
      && DataValues(group) == SplitPayloadLines(ev.data)
      && LastType(group) == SanitizeFieldValue(ev.event)
      && LastId(prior, group) == IdAfter(prior, EventFrame(ev))
  {
    hide SplitPayloadLines, DataValues, LastType, LastId, IdFields, EventFields, DataFields, SanitizeFieldValue;
    var g1 := comments + IdFields(ev);
    var g2 := g1 + EventFields(ev);
    ReadComments(comments, prior);
    ReadIdFields(comments, ev, prior);
    ReadEventFields(g1, ev, prior);
    ReadDataFields(g2, SplitPayloadLines(ev.data), prior);
    assert comments + WireFields(ev) == g2 + DataFields(SplitPayloadLines(ev.data));
    var none: seq<Bytes> := [];
    assert none + SplitPayloadLines(ev.data) == SplitPayloadLines(ev.data);
  }

  lemma JoinedPayload(data: Bytes)
    ensures JoinLF(SplitPayloadLines(data)) == Normalize(data) && SplitPayloadLines(data) != []
  {
    EmptyPayloadSplits(data);
    JoinInvertsSplit(Normalize(data));
  }

  // --------------------------------------------------------------- round trip

  lemma {:induction false} InterpretFrames(frames: seq<Frame>, comments: seq<Bytes>, prior: Bytes)
    requires AllComments(comments)
    ensures Interpret(Groups(comments + AllLines(frames)), prior) == Expected(frames, prior)
    decreases |frames|
  {
    hide WireFields, SplitPayloadLines, Normalize, SanitizeFieldValue, DataValues, LastType, LastId, JoinLF,
         FirstBlank;
    var none: seq<Bytes> := [];
    if frames == [] {
      assert comments + AllLines(frames) == comments;
      GroupsAtBlank(comments, none);
    } else {
      var frame, rest := frames[0], AllLines(frames[1..]);
      FrameLinesFit(frame);
      if frame.CommentFrame? {
        var more := comments + FrameBody(frame);
        assert comments + AllLines(frames) == more + rest;
        InterpretFrames(frames[1..], more, prior);
      } else {
        var group := comments + FrameBody(frame);
        assert comments + AllLines(frames) == group + ([[]] + rest);
        ReadBlank(group, rest, prior, 0);
        assert none + rest == rest;
        InterpretFrames(frames[1..], none, IdAfter(prior, frame));
        if frame.EventFrame? {
          ReadEventGroup(comments, frame.event, prior);
          JoinedPayload(frame.event.data);
        } else {
          ReadRetryGroup(comments, frame.delay, prior);
        }
      }
    }
  }

  lemma ReadRetryGroup(comments: seq<Bytes>, delay: Int64, prior: Bytes)
    requires AllComments(comments)
    ensures
      var group := comments + [RetryLine(delay)];
      DataValues(group) == [] && LastId(prior, group) == prior
  {
    ReadComments(comments, prior);
    ReadField(FIELD_RETRY, FormatNat(ClampedMillis(delay)));
    ReadOneMore(comments, RetryLine(delay), prior);
  }

  lemma {:induction false} LastRetryAppend(prior: int, a: seq<Bytes>, b: seq<Bytes>)
    ensures LastRetry(prior, a + b) == LastRetry(LastRetry(prior, a), b)
    decreases a
  {
    if a == [] {
      assert a + b == b;
    } else {
      LastRetryAppend(RetryAfter(prior, a[0]), a[1..], b);
      assert (a + b)[1..] == a[1..] + b;
    }
  }

  lemma {:induction false} NoRetryFields(prior: int, lines: seq<Bytes>)
    requires forall k :: 0 <= k < |lines| ==> !HasField(lines[k], FIELD_RETRY)
    ensures LastRetry(prior, lines) == prior
    decreases lines
  {
    if lines != [] {
      NoRetryFields(prior, lines[1..]);
    }
  }

  lemma RetryOfFrame(prior: int, frame: Frame)
    ensures LastRetry(prior, FrameToLines(frame)) ==
              if frame.RetryFrame? then ClampedMillis(frame.delay) * NANOS_PER_MILLI else prior
  {
    match frame
    case EventFrame(ev) =>
      forall k | 0 <= k < |FrameToLines(frame)|
        ensures !HasField(FrameToLines(frame)[k], FIELD_RETRY)
      {
        EventLineShape(ev, k);
      }
      NoRetryFields(prior, FrameToLines(frame));
    case CommentFrame(text) =>
      NoRetryFields(prior, FrameToLines(frame));
    case RetryFrame(d) =>
      var digits := FormatNat(ClampedMillis(d));
      ReadField(FIELD_RETRY, digits);
      ParseInvertsFormat(ClampedMillis(d));
      assert RetryAfter(prior, RetryLine(d)) == RetryNanos(digits);
      var lines := FrameToLines(frame);
      assert lines[0] == RetryLine(d) && lines[1..] == [[]];
      NoRetryFields(RetryNanos(digits), lines[1..]);
  }

  lemma {:induction false} EventLineShape(ev: Event, k: nat)
    requires k < |FrameToLines(EventFrame(ev))|
    ensures !HasField(FrameToLines(EventFrame(ev))[k], FIELD_RETRY)
  {
    hide SplitPayloadLines, ParseFieldLine, SanitizeFieldValue;
    var i, e, d := IdFields(ev), EventFields(ev), DataFields(SplitPayloadLines(ev.data));
    var all := FrameToLines(EventFrame(ev));
    assert all == i + e + d + [[]];
    if k < |i| {
      ReadField(FIELD_ID, SanitizeFieldValue(ev.id));
    } else if k < |i| + |e| {
      ReadField(FIELD_EVENT, SanitizeFieldValue(ev.event));
    } else if k < |i| + |e| + |d| {
      ReadField(FIELD_DATA, SplitPayloadLines(ev.data)[k - |i| - |e|]);
    } else {
      FieldLineShapes([], []);
    }
  }

  lemma {:induction false} RetryOfFrames(prior: int, frames: seq<Frame>)
    ensures LastRetry(prior, AllLines(frames)) == ExpectedRetry(frames, prior)
    decreases frames
  {
    if frames != [] {
      RetryOfFrame(prior, frames[0]);
      LastRetryAppend(prior, FrameToLines(frames[0]), AllLines(frames[1..]));
      RetryOfFrames(LastRetry(prior, FrameToLines(frames[0])), frames[1..]);
    }
  }

  /**
   * Reading back any sequence of frames gives exactly one event per event frame, with
   * names and ids stripped of CR, LF and NUL and terminators normalised to LF, whatever
   * comments and retries stand between them.
   */
  lemma {:induction false} PrintParseRoundTrip(frames: seq<Frame>)
    ensures Events(RenderAll(frames)) == Expected(frames, [])
  {
    RenderedHasNoBOM(frames);
    RenderedLines(frames);
    var none: seq<Bytes> := [];
    assert none + AllLines(frames) == AllLines(frames);
    InterpretFrames(frames, none, []);
  }

  /** And the delay kept is the last one framed. */
  lemma {:induction false} RetryRoundTrip(frames: seq<Frame>)
    ensures LastRetry(0, Lines(StripBOM(RenderAll(frames)))) == ExpectedRetry(frames, 0)
  {
    RenderedHasNoBOM(frames);
    RenderedLines(frames);
    RetryOfFrames(0, frames);
  }

  /**
   * The codec says it never writes an empty `id:` field, because that resets the
   * receiver's resume point. It does write one, exactly for an id that is not empty
   * but made of CR, LF and NUL only; then the id held before is lost.
   */
  lemma {:induction false} ResumePointLostIff(ev: Event, prior: Bytes)
    requires prior != []
    ensures LastId(prior, WireFields(ev)) == [] <==> ev.id != [] && forall c :: c in ev.id ==> Forbidden(c)
  {
    hide WireFields, LastId;
    var none: seq<Bytes> := [];
    ReadEventGroup(none, ev, prior);
    assert none + WireFields(ev) == WireFields(ev);
  }

  // ------------------------------------------------------------- the wire sink

  /** What a writer takes of a write: all of it, or some first octets and then an error. */
  function Taken(limit: Option<nat>, text: Bytes): (r: Bytes)
    ensures r <= text
    ensures |r| == if limit.Some? && limit.value < |text| then limit.value else |text|
  {
    match limit
    case None => text
    case Some(n) => text[..Min(n, |text|)]
  }

  /**
   * Writes each event framed (sse/sink.go), onto whatever was written before. `limit(n)`
   * says what the underlying writer takes of the n-th write; `None` is a write without error.
   */
  class WriterSink {
    const limit: nat -> Option<nat>
    var written: Bytes
    var writes: nat

    constructor (limit: nat -> Option<nat>)
      ensures written == [] && writes == 0 && this.limit == limit
    {
      this.limit, written, writes := limit, [], 0;
    }

    method Emit(ev: Event) returns (ok: bool)
      modifies this
      ensures written == old(written) + Taken(limit(old(writes)), Render(EventFrame(ev)))
      ensures writes == old(writes) + 1 && (ok <==> limit(old(writes)).None?)
    {
      var frame := FrameLines(ev);
      ok := limit(writes).None?;
      written, writes := written + Taken(limit(writes), frame), writes + 1;
    }
  }
}
