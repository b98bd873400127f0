/** Turning chunks into content blocks (streamer.go). */
module Streamers {
  import opened Octets
  import opened Protocol

  datatype Kind = Text | Thinking

  function KindBlock(kind: Kind): Block {
    if kind == Thinking then ThinkingBlock else TextBlock
  }

  function KindDelta(kind: Kind, text: string): Delta {
    if kind == Thinking then ThinkingDelta(text) else TextDelta(text)
  }

  /** What one chunk puts on the wire: the block's start if it is not open, and a delta. */
  function WriteEvents(kind: Kind, index: int, started: bool, chunk: string): Trace {
    (if started then [] else [BlockStart(index, KindBlock(kind))]) + [BlockDelta(index, KindDelta(kind, chunk))]
  }

  /** A streamer's own part of the wire says which block it has open and how many it closed. */
  predicate Accounts(trace: Trace, startIndex: int, blockIndex: int, blockStarted: bool) {
    && OpenBlock(trace) == (if blockStarted then blockIndex else -1)
    && blockIndex == startIndex + Stops(trace)
    && WellBracketed(trace)
    && forall i :: i in Started(trace) ==> i < if blockStarted then blockIndex + 1 else blockIndex
  }

  lemma OpenAccounts(trace: Trace, startIndex: nat, index: int, block: Block)
    requires Accounts(trace, startIndex, index, false)
    ensures Accounts(trace + [BlockStart(index, block)], startIndex, index, true)
  {
    StartedSnoc(trace, BlockStart(index, block));
    assert (trace + [BlockStart(index, block)])[..|trace|] == trace;
  }

  lemma DeltaAccounts(trace: Trace, startIndex: nat, index: int, delta: Delta)
    requires Accounts(trace, startIndex, index, true)
    ensures Accounts(trace + [BlockDelta(index, delta)], startIndex, index, true)
  {
    StartedSnoc(trace, BlockDelta(index, delta));
    assert (trace + [BlockDelta(index, delta)])[..|trace|] == trace;
  }

  lemma StopAccounts(trace: Trace, startIndex: nat, index: int)
    requires Accounts(trace, startIndex, index, true)
    ensures Accounts(trace + [BlockStop(index)], startIndex, index + 1, false)
  {
    StartedSnoc(trace, BlockStop(index));
    assert (trace + [BlockStop(index)])[..|trace|] == trace;
  }

  class TextStreamer {
    const publisher: Publisher?
    const kind: Kind
    const startIndex: nat
    var messageBuilder: string
    var blockIndex: nat
    var blockStarted: bool

    ghost var trace: Trace  // the events this streamer has delivered

    constructor (publisher: Publisher?, kind: Kind, startIndex: nat)
      ensures Valid() && trace == [] && messageBuilder == ""
      ensures this.publisher == publisher && this.kind == kind && this.startIndex == startIndex
      ensures blockIndex == startIndex && !blockStarted
    {
      this.publisher, this.kind, this.startIndex := publisher, kind, startIndex;
      messageBuilder, blockIndex, blockStarted := "", startIndex, false;
      trace := [];
    }

    /** The bookkeeping always agrees with the wire, whatever emissions failed before. */
    ghost predicate Valid()
      reads this
    {
      && Accounts(trace, startIndex, blockIndex, blockStarted)
      && (publisher == null ==> trace == [])
    }

    method Write(chunk: string) returns (ok: bool)
      requires Valid()
      modifies this, if publisher == null then {} else {publisher.sink}
      ensures Valid() && blockIndex == old(blockIndex)
      ensures messageBuilder == old(messageBuilder) + chunk
      ensures publisher == null || chunk == "" ==> ok && trace == old(trace) && blockStarted == old(blockStarted)
      ensures publisher != null ==>
                && old(trace) <= trace
                && publisher.sink.delivered == old(publisher.sink.delivered) + trace[|old(trace)|..]
      ensures publisher != null && chunk != "" ==>
                Delivers(old(trace), trace, WriteEvents(kind, blockIndex, old(blockStarted), chunk), ok)
      ensures publisher != null && chunk != "" && ok ==> blockStarted
    {
      if chunk == "" {
        return true;
      }
      messageBuilder := messageBuilder + chunk;
      if publisher == null {
        return true;
      }
      if !blockStarted {
        ok := publisher.Publish(BlockStart(blockIndex, KindBlock(kind)));
        if !ok {
          return;
        }
        OpenAccounts(trace, startIndex, blockIndex, KindBlock(kind));
        trace := trace + [BlockStart(blockIndex, KindBlock(kind))];
        blockStarted := true;
      }
      ok := publisher.Publish(BlockDelta(blockIndex, KindDelta(kind, chunk)));
      if ok {
        DeltaAccounts(trace, startIndex, blockIndex, KindDelta(kind, chunk));
        trace := trace + [BlockDelta(blockIndex, KindDelta(kind, chunk))];
      }
    }

    method Close() returns (ok: bool)
      requires Valid()
      modifies this, if publisher == null then {} else {publisher.sink}
      ensures Valid() && messageBuilder == old(messageBuilder)
      ensures publisher != null ==>
                && old(trace) <= trace
                && publisher.sink.delivered == old(publisher.sink.delivered) + trace[|old(trace)|..]
      ensures Delivers(old(trace), trace, if old(blockStarted) then [BlockStop(old(blockIndex))] else [], ok)
      ensures blockStarted == (old(blockStarted) && !ok)
      ensures blockIndex == old(blockIndex) + if old(blockStarted) && ok then 1 else 0
    {
      if !blockStarted {
        return true;
      }
      if publisher != null {
        ok := publisher.Publish(BlockStop(blockIndex));
        if !ok {
          return;
        }
      }
      StopAccounts(trace, startIndex, blockIndex);
      trace := trace + [BlockStop(blockIndex)];
      blockStarted := false;
      blockIndex := blockIndex + 1;
      ok := true;
    }
  }

  // ------------------------------------------------------------- lines of a text

  /** What follows the last newline. */
  function Tail(s: string): string {
    if s == "" then ""
    else if s[|s| - 1] == '\n' then ""
    else Tail(s[..|s| - 1]) + [s[|s| - 1]]
  }

  /** The newline-terminated lines, without their newlines. */
  function Complete(s: string): seq<string> {
    if s == "" then []
    else if s[|s| - 1] == '\n' then Complete(s[..|s| - 1]) + [Tail(s[..|s| - 1])]
    else Complete(s[..|s| - 1])
  }

  type LineTransform = string -> string

  const IDENTITY: LineTransform := x => x

  function Rendered(f: LineTransform, lines: seq<string>): string {
    if lines == [] then "" else f(lines[0]) + "\n" + Rendered(f, lines[1..])
  }

  /** The text a line streamer should end with for an input. */
  function LineText(f: LineTransform, input: string): string {
    Rendered(f, Complete(input)) + if Tail(input) != "" then f(Tail(input)) else ""
  }

  lemma LinesSnoc(s: string, c: char)
    ensures Tail(s + [c]) == if c == '\n' then "" else Tail(s) + [c]
    ensures Complete(s + [c]) == if c == '\n' then Complete(s) + [Tail(s)] else Complete(s)
  {
    var t := s + [c];
    assert t[..|t| - 1] == s;
  }

  lemma AppendSnoc(a: string, b: string)
    requires b != ""
    ensures a + b == (a + b[..|b| - 1]) + [b[|b| - 1]]
  {
  }

  /** Reading on from a tail is reading the whole text. */
  lemma {:induction false} LinesResume(a: string, b: string)
    ensures Tail(a + b) == Tail(Tail(a) + b)
    ensures Complete(a + b) == Complete(a) + Complete(Tail(a) + b)
  {
    if b == "" {
      assert a + b == a && Tail(a) + b == Tail(a);
      TailHasNoLines(a);
    } else {
      hide Tail, Complete;
      var init, c := b[..|b| - 1], b[|b| - 1];
      LinesResume(a, init);
      AppendSnoc(a, b);
      AppendSnoc(Tail(a), b);
      LinesSnoc(a + init, c);
      LinesSnoc(Tail(a) + init, c);
      Assoc(Complete(a), Complete(Tail(a) + init), [Tail(a + init)]);
    }
  }

  lemma {:induction false} TailHasNoLines(s: string)
    ensures '\n' !in Tail(s) && Tail(Tail(s)) == Tail(s) && Complete(Tail(s)) == []
  {
    if s != "" && s[|s| - 1] != '\n' {
      TailHasNoLines(s[..|s| - 1]);
      assert Tail(s)[..|Tail(s)| - 1] == Tail(s[..|s| - 1]);
    }
  }

  lemma {:induction false} NoNewline(s: string)
    requires '\n' !in s
    ensures Tail(s) == s && Complete(s) == []
  {
    if s != "" {
      NoNewline(s[..|s| - 1]);
      assert s == s[..|s| - 1] + [s[|s| - 1]];
    }
  }

  lemma FirstLineOut(line: string, rest: string)
    requires '\n' !in line
    ensures Complete(line + "\n" + rest) == [line] + Complete(rest)
    ensures Tail(line + "\n" + rest) == Tail(rest)
  {
    var s := line + "\n";
    assert s[..|line|] == line;
    NoNewline(line);
    LinesResume(s, rest);
    assert Complete(s) == [line] && "" + rest == rest;
  }

  /** Taking the next line out of what is held and what is still unread. */
  lemma NextLine(held: string, unread: string, nl: nat, done: seq<string>)
    requires '\n' !in held && nl < |unread| && unread[nl] == '\n' && '\n' !in unread[..nl]
    ensures
      var line, rest := held + unread[..nl], unread[nl + 1..];
      && done + Complete(held + unread) == (done + [line]) + Complete(rest)
      && Tail(held + unread) == Tail(rest)
  {
    hide Complete, Tail;
    var line, rest := held + unread[..nl], unread[nl + 1..];
    assert held + unread == line + "\n" + rest;
    FirstLineOut(line, rest);
    Assoc(done, [line], Complete(rest));
  }

  lemma {:induction false} RenderedAppend(f: LineTransform, a: seq<string>, b: seq<string>)
    ensures Rendered(f, a + b) == Rendered(f, a) + Rendered(f, b)
  {
    if a == [] {
      assert a + b == b;
    } else {
      RenderedAppend(f, a[1..], b);
      assert (a + b)[1..] == a[1..] + b;
      Assoc(f(a[0]) + "\n", Rendered(f, a[1..]), Rendered(f, b));
    }
  }

  lemma RenderedSnoc(f: LineTransform, lines: seq<string>, line: string)
    ensures Rendered(f, lines + [line]) == Rendered(f, lines) + LineChunk(f, line, true)
  {
    RenderedAppend(f, lines, [line]);
    assert Rendered(f, [line]) == f(line) + "\n" + Rendered(f, [line][1..]);
  }

  /** What one line contributes to the output. */
  function LineChunk(f: LineTransform, line: string, withNewline: bool): string {
    if withNewline then f(line) + "\n" else f(line)
  }

  /**
   * The text line by line: the transform applied to each line without its newline, the
   * newline put back, and an unterminated last line transformed too.
   */
  lemma LineTextByLine(f: LineTransform, line: string, rest: string)
    requires '\n' !in line
    ensures LineText(f, line + "\n" + rest) == f(line) + "\n" + LineText(f, rest)
    ensures LineText(f, line) == if line == "" then "" else f(line)
  {
    hide Complete, Tail;
    FirstLineOut(line, rest);
    NoNewline(line);
    var lines, tail := Complete(rest), if Tail(rest) != "" then f(Tail(rest)) else "";
    assert ([line] + lines)[1..] == lines;
    Assoc(f(line) + "\n", Rendered(f, lines), tail);
  }

  /** With the identity transform nothing is lost and nothing added. */
  lemma {:induction false} IdentityGivesInputBack(input: string)
    ensures LineText(IDENTITY, input) == input
  {
    if input != "" {
      var init, c := input[..|input| - 1], input[|input| - 1];
      IdentityGivesInputBack(init);
      TailHasNoLines(init);
      if c == '\n' {
        RenderedAppend(IDENTITY, Complete(init), [Tail(init)]);
        assert Rendered(IDENTITY, [Tail(init)]) == Tail(init) + "\n" + Rendered(IDENTITY, [Tail(init)][1..]);
        assert LineText(IDENTITY, input) == init + "\n";
      } else {
        assert LineText(IDENTITY, input) == init + [c];
      }
      assert input == init + [c];
    }
  }

  lemma {:induction false} SomeLineIff(input: string)
    ensures Complete(input) != [] || Tail(input) != "" <==> input != ""
  {
  }

  /** The text a reader of the trace gets from its text deltas. */
  function DeltaText(t: Trace): string {
    if t == [] then "" else
      var last := t[|t| - 1];
      DeltaText(t[..|t| - 1]) + if last.BlockDelta? && last.delta.TextDelta? then last.delta.text else ""
  }

  lemma DeltaTextWrite(t: Trace, index: int, started: bool, chunk: string)
    ensures DeltaText(t + WriteEvents(Text, index, started, chunk)) == DeltaText(t) + chunk
  {
    var start, delta := BlockStart(index, TextBlock), BlockDelta(index, TextDelta(chunk));
    var u := if started then t else t + [start];
    assert (t + [start])[..|t|] == t;
    assert (u + [delta])[..|u|] == u;
    assert t + WriteEvents(Text, index, started, chunk) == u + [delta];
  }

  /** What a run of lines puts on the wire. */
  function LineEvents(f: LineTransform, index: int, started: bool, lines: seq<string>): Trace
    decreases lines
  {
    if lines == [] then []
    else WriteEvents(Text, index, started, f(lines[0]) + "\n") + LineEvents(f, index, true, lines[1..])
  }

  lemma {:induction false} LineEventsText(f: LineTransform, t: Trace, index: int, started: bool, lines: seq<string>)
    ensures DeltaText(t + LineEvents(f, index, started, lines)) == DeltaText(t) + Rendered(f, lines)
    decreases lines
  {
    if lines == [] {
      assert t + [] == t;
    } else {
      var chunk := f(lines[0]) + "\n";
      var head := WriteEvents(Text, index, started, chunk);
      DeltaTextWrite(t, index, started, chunk);
      LineEventsText(f, t + head, index, true, lines[1..]);
      Assoc(t, head, LineEvents(f, index, true, lines[1..]));
      Assoc(DeltaText(t), chunk, Rendered(f, lines[1..]));
    }
  }

  lemma {:induction false} LineEventsSnoc(f: LineTransform, index: int, started: bool, lines: seq<string>, line: string)
    ensures LineEvents(f, index, started, lines + [line]) ==
              LineEvents(f, index, started, lines)
              + WriteEvents(Text, index, started || lines != [], LineChunk(f, line, true))
    decreases lines
  {
    if lines == [] {
      assert lines + [line] == [line] && [line][1..] == [];
      var chunk := f(line) + "\n";
      assert WriteEvents(Text, index, started, chunk) + [] == WriteEvents(Text, index, started, chunk);
    } else {
      assert (lines + [line])[1..] == lines[1..] + [line];
      LineEventsSnoc(f, index, true, lines[1..], line);
      Assoc(WriteEvents(Text, index, started, f(lines[0]) + "\n"),
            LineEvents(f, index, true, lines[1..]),
            WriteEvents(Text, index, true, f(line) + "\n"));
    }
  }

  lemma LineEventsNone(f: LineTransform, index: int, started: bool)
    ensures LineEvents(f, index, started, []) == [] && Rendered(f, []) == ""
  {
  }

  lemma {:induction false} LineEventsAppend(f: LineTransform, index: int, started: bool, a: seq<string>, b: seq<string>)
    requires a != []
    ensures LineEvents(f, index, started, a + b) == LineEvents(f, index, started, a) + LineEvents(f, index, true, b)
    decreases a
  {
    assert (a + b)[1..] == a[1..] + b;
    if |a| == 1 {
      assert a[1..] == [] && a[1..] + b == b;
    } else {
      LineEventsAppend(f, index, true, a[1..], b);
    }
    Assoc(WriteEvents(Text, index, started, f(a[0]) + "\n"),
          LineEvents(f, index, true, a[1..]), LineEvents(f, index, true, b));
  }

  lemma DeliversAfter(a: Trace, c: Trace, x: Trace, y: Trace, z: Trace)
    requires Delivers(a + x, c, y, false)
    ensures Delivers(a, c, x + y + z, false)
  {
  }

  lemma DeliversAll(a: Trace, b: Trace, x: Trace)
    ensures Delivers(a, b, x, true) <==> b == a + x
  {
  }

  /** What two calls in a row put on the wire. */
  lemma WireGrows(wire0: Trace, trace0: Trace, wire1: Trace, trace1: Trace, wire2: Trace, trace2: Trace)
    requires trace0 <= trace1 <= trace2
    requires wire1 == wire0 + trace1[|trace0|..] && wire2 == wire1 + trace2[|trace1|..]
    ensures trace0 <= trace2 && wire2 == wire0 + trace2[|trace0|..]
  {
  }

  /** What `Close` puts on the wire: the unterminated tail, if any, and the stop. */
  function CloseEvents(f: LineTransform, index: int, started: bool, tail: string): Trace {
    (if tail != "" then WriteEvents(Text, index, started, f(tail)) else [])
    + (if started || tail != "" then [BlockStop(index)] else [])
  }

  method IndexByte(s: string, c: char) returns (i: int)
    ensures -1 <= i < |s|
    ensures i >= 0 ==> s[i] == c && c !in s[..i]
    ensures i < 0 ==> c !in s
  {
    for k := 0 to |s|
      invariant c !in s[..k]
    {
      if s[k] == c {
        return k;
      }
    }
    return -1;
  }

  /** A missing transform passes lines through unchanged. */
  function OrIdentity(transform: Option<LineTransform>): LineTransform {
    match transform
    case Some(f) => f
    case None => IDENTITY
  }

  class LineStreamer {
    const publisher: Publisher?
    const transform: LineTransform
    const startIndex: nat
    var lineBuffer: string
    var output: string
    var blockIndex: nat
    var blockStarted: bool

    ghost var trace: Trace  // the events this streamer has delivered

    constructor (publisher: Publisher?, startIndex: nat, transform: Option<LineTransform>)
      ensures Valid() && trace == [] && output == "" && lineBuffer == ""
      ensures this.publisher == publisher && this.startIndex == startIndex
      ensures this.transform == OrIdentity(transform)
      ensures blockIndex == startIndex && !blockStarted
    {
      this.publisher, this.startIndex := publisher, startIndex;
      this.transform := OrIdentity(transform);
      lineBuffer, output, blockIndex, blockStarted := "", "", startIndex, false;
      trace := [];
    }

    ghost predicate Valid()
      reads this
    {
      && Accounts(trace, startIndex, blockIndex, blockStarted)
      && (publisher == null ==> trace == [] && !blockStarted)
      && '\n' !in lineBuffer
    }

    /** Whatever fails, the sink got exactly the events this streamer traced. */
    twostate predicate SameOnWire()
      reads this, if publisher == null then {} else {publisher.sink}
    {
      publisher != null ==>
        && old(trace) <= trace
        && publisher.sink.delivered == old(publisher.sink.delivered) + trace[|old(trace)|..]
    }

    method EmitLine(line: string, withNewline: bool) returns (ok: bool)
      requires Valid()
      modifies this`output, this`blockStarted, this`trace, if publisher == null then {} else {publisher.sink}
      ensures Valid() && SameOnWire()
      ensures output == old(output) + LineChunk(transform, line, withNewline)
      ensures publisher == null ==> ok && blockStarted == old(blockStarted) && trace == old(trace)
      ensures publisher != null ==>
                Delivers(old(trace), trace,
                         WriteEvents(Text, blockIndex, old(blockStarted), LineChunk(transform, line, withNewline)), ok)
      ensures publisher != null && ok ==> blockStarted
    {
      var chunk := transform(line);
      if withNewline {
        chunk := chunk + "\n";
      }
      output := output + chunk;
      if publisher == null {
        return true;
      }
      if !blockStarted {
        ok := publisher.Publish(BlockStart(blockIndex, TextBlock));
        if !ok {
          return;
        }
        OpenAccounts(trace, startIndex, blockIndex, TextBlock);
        trace := trace + [BlockStart(blockIndex, TextBlock)];
        blockStarted := true;
      }
      ok := publisher.Publish(BlockDelta(blockIndex, TextDelta(chunk)));
      if ok {
        DeltaAccounts(trace, startIndex, blockIndex, TextDelta(chunk));
        trace := trace + [BlockDelta(blockIndex, TextDelta(chunk))];
      }
    }

    method Write(chunk: string) returns (ok: bool)
      requires Valid()
      modifies this, if publisher == null then {} else {publisher.sink}
      ensures Valid() && SameOnWire() && blockIndex == old(blockIndex)
      ensures ok ==>
                var all := old(lineBuffer) + chunk;
                && lineBuffer == Tail(all)
                && output == old(output) + Rendered(transform, Complete(all))
      ensures publisher == null ==> ok
      ensures publisher != null ==>
                var lines := Complete(old(lineBuffer) + chunk);
                && Delivers(old(trace), trace, LineEvents(transform, blockIndex, old(blockStarted), lines), ok)
                && (ok ==> blockStarted == (old(blockStarted) || lines != []))
    {
      hide Accounts, Complete, Tail, Rendered, LineEvents, WriteEvents, LineChunk, Delivers;
      NoNewline(lineBuffer);
      LineEventsNone(transform, blockIndex, blockStarted);
      DeliversAll(trace, trace, []);
      if chunk == "" {
        assert lineBuffer + chunk == lineBuffer;
        return true;
      }
      ghost var all := lineBuffer + chunk;
      ghost var done: seq<string> := [];
      var rest := chunk;
      while true
        invariant Valid() && SameOnWire() && blockIndex == old(blockIndex)
        invariant Complete(all) == done + Complete(lineBuffer + rest) && Tail(all) == Tail(lineBuffer + rest)
        invariant output == old(output) + Rendered(transform, done)
        invariant publisher != null ==>
                    && trace == old(trace) + LineEvents(transform, blockIndex, old(blockStarted), done)
                    && blockStarted == (old(blockStarted) || done != [])
        decreases |rest|
      {
        var nl := IndexByte(rest, '\n');
        if nl < 0 {
          NoNewline(lineBuffer + rest);
          DeliversAll(old(trace), trace, LineEvents(transform, blockIndex, old(blockStarted), done));
          assert done + [] == done;
          lineBuffer := lineBuffer + rest;
          return true;
        }
        var line := lineBuffer + rest[..nl];
        NextLine(lineBuffer, rest, nl, done);
        LineEventsSnoc(transform, blockIndex, old(blockStarted), done, line);
        RenderedSnoc(transform, done, line);
        ghost var sent := LineEvents(transform, blockIndex, old(blockStarted), done);
        ghost var next := WriteEvents(Text, blockIndex, blockStarted, LineChunk(transform, line, true));
        ghost var later := Complete(rest[nl + 1..]);
        ghost var traced, wired := trace, if publisher == null then [] else publisher.sink.delivered;
        lineBuffer := "";
        ok := EmitLine(line, true);
        if publisher != null {
          WireGrows(old(publisher.sink.delivered), old(trace), wired, traced, publisher.sink.delivered, trace);
          DeliversAll(traced, trace, next);
          Assoc(old(trace), sent, next);
        }
        if !ok {
          if publisher != null {
            LineEventsAppend(transform, blockIndex, old(blockStarted), done + [line], later);
            DeliversAfter(old(trace), trace, sent, next, LineEvents(transform, blockIndex, true, later));
          }
          return;
        }
        done := done + [line];
        rest := rest[nl + 1..];
        assert lineBuffer + rest == rest;
      }
    }

    method Close() returns (ok: bool)
      requires Valid()
      modifies this, if publisher == null then {} else {publisher.sink}
      ensures Valid() && SameOnWire()
      ensures publisher == null ==> ok && blockIndex == old(blockIndex)
      ensures ok ==> lineBuffer == "" && !blockStarted
      ensures ok ==> output == old(output) + if old(lineBuffer) != "" then transform(old(lineBuffer)) else ""
      ensures publisher != null ==>
                && Delivers(old(trace), trace,
                            CloseEvents(transform, old(blockIndex), old(blockStarted), old(lineBuffer)), ok)
                && (ok ==> blockIndex == old(blockIndex) + if old(blockStarted) || old(lineBuffer) != "" then 1 else 0)
    {
      hide Accounts, WriteEvents;
      NoNewline(lineBuffer);
      var tail := lineBuffer;
      if tail != "" {
        ok := EmitLine(tail, false);
        if !ok {
          return;
        }
        lineBuffer := "";
      }
      if !blockStarted {
        return true;
      }
      if publisher != null {
        ok := publisher.Publish(BlockStop(blockIndex));
        if !ok {
          return;
        }
      }
      StopAccounts(trace, startIndex, blockIndex);
      trace := trace + [BlockStop(blockIndex)];
      blockStarted := false;
      blockIndex := blockIndex + 1;
      ok := true;
    }
  }

  /** A streamer that has taken in `written` without an error since it was built. */
  ghost predicate Took(s: LineStreamer, written: string)
    reads s
  {
    && s.Valid()
    && s.blockIndex == s.startIndex
    && s.lineBuffer == Tail(written)
    && s.output == Rendered(s.transform, Complete(written))
    && (s.publisher != null ==> DeltaText(s.trace) == s.output && s.blockStarted == (Complete(written) != []))
  }

  lemma TookMore(f: LineTransform, written: string, chunk: string, trace: Trace, index: int, started: bool)
    ensures
      var lines := Complete(Tail(written) + chunk);
      && Tail(written + chunk) == Tail(Tail(written) + chunk)
      && Complete(written + chunk) == Complete(written) + lines
      && Rendered(f, Complete(written + chunk)) == Rendered(f, Complete(written)) + Rendered(f, lines)
      && DeltaText(trace + LineEvents(f, index, started, lines)) == DeltaText(trace) + Rendered(f, lines)
  {
    var lines := Complete(Tail(written) + chunk);
    LinesResume(written, chunk);
    RenderedAppend(f, Complete(written), lines);
    LineEventsText(f, trace, index, started, lines);
  }

  /** Feeds chunks to a new streamer until one fails. */
  method WriteAll(s: LineStreamer, chunks: seq<string>) returns (ok: bool)
    requires Took(s, "") && s.trace == []
    modifies s, if s.publisher == null then {} else {s.publisher.sink}
    ensures s.Valid()
    ensures s.publisher != null ==> s.publisher.sink.delivered == old(s.publisher.sink.delivered) + s.trace
    ensures s.publisher == null ==> ok
    ensures ok ==> Took(s, Concat(chunks))
  {
    hide Accounts, WriteEvents, LineEvents, Rendered, DeltaText, Complete, Tail;
    ghost var written := "";
    for i := 0 to |chunks|
      invariant Took(s, written) && written + Concat(chunks[i..]) == Concat(chunks)
      invariant s.publisher != null ==> s.publisher.sink.delivered == old(s.publisher.sink.delivered) + s.trace
    {
      ghost var before, started := s.trace, s.blockStarted;
      TookMore(s.transform, written, chunks[i], before, s.blockIndex, started);
      Assoc(written, chunks[i], Concat(chunks[i + 1..]));
      assert chunks[i..][1..] == chunks[i + 1..];
      ok := s.Write(chunks[i]);
      if !ok {
        return;
      }
      assert s.publisher != null ==>
          s.trace == before + LineEvents(s.transform, s.blockIndex, started, Complete(Tail(written) + chunks[i]));
      written := written + chunks[i];
    }
    assert written + [] == written;
    ok := true;
  }

  /**
   * A whole use of a line streamer. However the input is cut into chunks, the text is the
   * line-by-line rendering of the whole input, the deltas on the wire add up to it, and
   * the index has advanced by one exactly when there was any input.
   */
  method StreamLines(publisher: Publisher?, startIndex: nat, transform: Option<LineTransform>, chunks: seq<string>)
    returns (ok: bool, text: string, index: nat, ghost trace: Trace)
    modifies if publisher == null then {} else {publisher.sink}
    ensures publisher == null ==> ok
    ensures publisher != null ==> publisher.sink.delivered == old(publisher.sink.delivered) + trace
    ensures ok ==> text == LineText(OrIdentity(transform), Concat(chunks))
    ensures ok && transform.Some? ==> text == LineText(transform.value, Concat(chunks))
    ensures ok && transform.None? ==> text == Concat(chunks)
    ensures ok && publisher != null ==> DeltaText(trace) == text
    ensures ok && publisher != null ==> index == startIndex + if Concat(chunks) != "" then 1 else 0
    ensures ok ==> WellBracketed(trace) && OpenBlock(trace) == -1
  {
    hide Accounts, WriteEvents, CloseEvents, Rendered, DeltaText, Complete, Tail, OrIdentity;
    GivenTransform(transform, Concat(chunks));
    var f := OrIdentity(transform);
    var s := new LineStreamer(publisher, startIndex, transform);
    assert Took(s, "") by {
      LineEventsNone(f, startIndex, false);
      NoNewline("");
      NoDeltas();
    }
    ok := WriteAll(s, chunks);
    if ok {
      ghost var before, started, tail := s.trace, s.blockStarted, s.lineBuffer;
      SomeLineIff(Concat(chunks));
      CloseEventsText(f, before, startIndex, started, tail);
      ok := s.Close();
      if ok {
        assert publisher != null ==> s.trace == before + CloseEvents(f, startIndex, started, tail);
        AccountsClosed(s.trace, startIndex, s.blockIndex);
      }
    }
    text, index, trace := s.output, s.blockIndex, s.trace;
  }

  /** The transform given is the one applied; without one the input stands. */
  lemma GivenTransform(transform: Option<LineTransform>, input: string)
    ensures LineText(OrIdentity(transform), input) ==
              match transform
              case Some(f) => LineText(f, input)
              case None => input
  {
    IdentityGivesInputBack(input);
  }

  lemma NoDeltas()
    ensures DeltaText([]) == ""
  {
  }

  lemma AccountsClosed(trace: Trace, startIndex: nat, index: int)
    requires Accounts(trace, startIndex, index, false)
    ensures WellBracketed(trace) && OpenBlock(trace) == -1
  {
  }

  lemma CloseEventsText(f: LineTransform, t: Trace, index: int, started: bool, tail: string)
    ensures DeltaText(t + CloseEvents(f, index, started, tail)) == DeltaText(t) + if tail != "" then f(tail) else ""
  {
    var stop := BlockStop(index);
    var u := if tail != "" then t + WriteEvents(Text, index, started, f(tail)) else t;
    DeltaTextWrite(t, index, started, f(tail));
    assert (u + [stop])[..|u|] == u;
    assert t + CloseEvents(f, index, started, tail) == if started || tail != "" then u + [stop] else u;
  }
}
