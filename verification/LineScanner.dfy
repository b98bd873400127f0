/**
 * Splitting a byte stream into lines (sse/source.go, the split function), and the
 * growing buffer that `bufio.Scanner` drives it over.
 */
module LineScanner {
  import opened Octets

  predicate IsBreak(c: Byte) {
    c == LF || c == CR
  }

  /** No terminator among the first `n` octets. */
  predicate NoBreaks(s: Bytes, n: nat)
    requires n <= |s|
  {
    forall k :: 0 <= k < n ==> !IsBreak(s[k])
  }

  /** A string that fits on one line. */
  predicate OneLine(s: Bytes) {
    NoBreaks(s, |s|)
  }

  // ---------------------------------------------------------------- reference

  /**
   * The lines of a complete stream, read octet by octet: CRLF, LF and a lone CR each
   * end one line, and octets after the last terminator form a final line.
   */
  function Lines(s: Bytes): seq<Bytes> {
    if s == [] then []
    else if s[0] == LF then [[]] + Lines(s[1..])
    else if s[0] == CR then [[]] + Lines(s[if |s| > 1 && s[1] == LF then 2 else 1..])
    else Extend(s[0], Lines(s[1..]))
  }

  function Extend(c: Byte, lines: seq<Bytes>): seq<Bytes> {
    if lines == [] then [[c]] else [[c] + lines[0]] + lines[1..]
  }

  // --------------------------------------------------------- the split function

  /** What a split function answers: "read more", or a token and how far to advance. */
  datatype Split = NeedMore | Token(advance: nat, line: Bytes)

  /** Where the first CR or LF stands; the length of `s` when there is none. */
  function FirstBreak(s: Bytes): (i: nat)
    ensures i <= |s| && NoBreaks(s, i)
    ensures i < |s| ==> IsBreak(s[i])
  {
    if s == [] || IsBreak(s[0]) then 0 else
      var i := FirstBreak(s[1..]) + 1;
      assert forall k :: 0 < k < i ==> s[k] == s[1..][k - 1];
      i
  }

  function ScanAtCarriageReturn(data: Bytes, i: nat, atEOF: bool): Split
    requires i < |data|
  {
    if i + 1 == |data| && !atEOF then NeedMore
    else if i + 1 != |data| && data[i + 1] == LF then Token(i + 2, data[..i])
    else Token(i + 1, data[..i])
  }

  /** The split decision, as a function of the position of the first terminator. */
  function SplitLine(data: Bytes, atEOF: bool): Split {
    var i := FirstBreak(data);
    if i < |data| && data[i] == LF then Token(i + 1, data[..i])
    else if i < |data| then ScanAtCarriageReturn(data, i, atEOF)
    else if atEOF && data != [] then Token(|data|, data)
    else NeedMore
  }

  method ScanFrameLines(data: Bytes, atEOF: bool) returns (r: Split)
    ensures r == SplitLine(data, atEOF)
  {
    if atEOF && |data| == 0 {
      return NeedMore;
    }
    for i := 0 to |data|
      invariant NoBreaks(data, i)
    {
      if data[i] == LF {
        FirstBreakAt(data, i);
        return Token(i + 1, data[..i]);
      }
      if data[i] == CR {
        FirstBreakAt(data, i);
        return ScanAtCarriageReturn(data, i, atEOF);
      }
    }
    FirstBreakAt(data, |data|);
    if atEOF {
      return Token(|data|, data);
    }
    return NeedMore;
  }

  lemma FirstBreakAt(s: Bytes, i: nat)
    requires i <= |s| && NoBreaks(s, i)
    requires i < |s| ==> IsBreak(s[i])
    ensures FirstBreak(s) == i
  {
  }

  // --------------------------------------------------------------------- laws

  lemma {:induction false} LinesWithoutBreak(s: Bytes)
    requires s != [] && OneLine(s)
    ensures Lines(s) == [s]
  {
    if |s| > 1 {
      LinesWithoutBreak(s[1..]);
      assert s == [s[0]] + s[1..];
    } else {
      assert Lines(s[1..]) == [] && s == [s[0]];
    }
    assert !IsBreak(s[0]);
  }

  /** A break-free stretch before a terminator is one line. */
  lemma {:induction false} LinesUpToBreak(s: Bytes, i: nat)
    requires i < |s| && NoBreaks(s, i) && IsBreak(s[i])
    ensures
      var n := if s[i] == CR && i + 1 < |s| && s[i + 1] == LF then i + 2 else i + 1;
      Lines(s) == [s[..i]] + Lines(s[n..])
  {
    if i == 0 {
      assert s[..0] == [];
    } else {
      LinesPastFirst(s);
      hide Lines, Extend;
      var t := s[1..];
      assert forall k :: 0 <= k < i - 1 ==> t[k] == s[k + 1];
      LinesUpToBreak(t, i - 1);
      var n := if s[i] == CR && i + 1 < |s| && s[i + 1] == LF then i + 2 else i + 1;
      ExtendFirst(s[0], t[..i - 1], Lines(t[n - 1..]));
      OneShorter(s, i, n);
    }
  }

  lemma ExtendFirst(c: Byte, line: Bytes, rest: seq<Bytes>)
    ensures Extend(c, [line] + rest) == [[c] + line] + rest
  {
    assert ([line] + rest)[1..] == rest;
  }

  lemma OneShorter(s: Bytes, i: nat, n: nat)
    requires 0 < i <= n <= |s|
    ensures s[..i] == [s[0]] + s[1..][..i - 1] && s[n..] == s[1..][n - 1..]
  {
  }

  lemma LinesPastFirst(s: Bytes)
    requires s != [] && !IsBreak(s[0])
    ensures Lines(s) == Extend(s[0], Lines(s[1..]))
  {
  }

  /** The three terminators, and the final line that has none. */
  lemma LineEndings(line: Bytes, rest: Bytes)
    requires forall c :: c in line ==> c != '\r' && c != '\n'
    ensures Lines(line + "\n" + rest) == [line] + Lines(rest)
    ensures Lines(line + "\r\n" + rest) == [line] + Lines(rest)
    ensures rest == [] || rest[0] != '\n' ==> Lines(line + "\r" + rest) == [line] + Lines(rest)
    ensures Lines(line) == if line == [] then [] else [line]
  {
    EndedBy(line, "\n", rest);
    EndedBy(line, "\r\n", rest);
    if rest == [] || rest[0] != '\n' {
      EndedBy(line, "\r", rest);
    }
    if line != [] {
      LinesWithoutBreak(line);
    }
  }

  lemma EndedBy(line: Bytes, end: Bytes, rest: Bytes)
    requires forall c :: c in line ==> !IsBreak(c)
    requires end in [[LF], [CR, LF], [CR]] && (end == [CR] && rest != [] ==> rest[0] != LF)
    ensures Lines(line + end + rest) == [line] + Lines(rest)
  {
    var s, i := line + end + rest, |line|;
    assert s[i] == end[0] && (|end| == 2 ==> s[i + 1] == end[1]);
    assert forall k :: 0 <= k < i ==> s[k] == line[k];
    LinesUpToBreak(s, i);
    assert s[..i] == line && s[i + |end|..] == rest;
    assert |end| == 1 && i + 1 < |s| ==> s[i + 1] == rest[0];
  }

  /** Where the octets after the first line begin. */
  function AfterFirstLine(s: Bytes): (n: nat)
    ensures FirstBreak(s) <= n <= |s|
  {
    var i := FirstBreak(s);
    if i == |s| then i
    else if s[i] == CR && i + 1 < |s| && s[i + 1] == LF then i + 2
    else i + 1
  }

  lemma FirstLine(s: Bytes)
    requires s != []
    ensures Lines(s) == [s[..FirstBreak(s)]] + Lines(s[AfterFirstLine(s)..])
  {
    var i := FirstBreak(s);
    if i == |s| {
      LinesWithoutBreak(s);
      assert s[..i] == s && s[i..] == [];
    } else {
      LinesUpToBreak(s, i);
    }
  }

  /** Dropping octets of the first line shortens that line and nothing else. */
  lemma DropFromFirstLine(s: Bytes, n: nat)
    requires n <= FirstBreak(s)
    ensures FirstBreak(s[n..]) == FirstBreak(s) - n
    ensures AfterFirstLine(s[n..]) == AfterFirstLine(s) - n
    ensures s[n..][..FirstBreak(s) - n] == s[..FirstBreak(s)][n..]
    ensures s[n..][AfterFirstLine(s) - n..] == s[AfterFirstLine(s)..]
  {
  }

  /** A token found without end-of-input is final: later octets never change it. */
  lemma TokenIsStable(data: Bytes, more: Bytes, atEOF: bool)
    requires SplitLine(data, false).Token?
    ensures SplitLine(data + more, atEOF) == SplitLine(data, false)
  {
    var i := FirstBreak(data);
    FirstBreakAt(data + more, i);
  }

  /**
   * Whatever arrives later, a token is the first line of the whole stream, and cutting
   * `advance` octets off leaves exactly the other lines. Each token consumes input.
   */
  lemma TokenIsFirstLine(data: Bytes, atEOF: bool, more: Bytes)
    requires SplitLine(data, atEOF).Token?
    requires atEOF ==> more == []
    ensures
      var t := SplitLine(data, atEOF);
      && 0 < t.advance <= |data|
      && Lines(data + more) == [t.line] + Lines(data[t.advance..] + more)
  {
    var t := SplitLine(data, atEOF);
    var i := FirstBreak(data);
    var all := data + more;
    assert all[..i] == data[..i];
    assert all[t.advance..] == data[t.advance..] + more;
    if i < |data| {
      LinesUpToBreak(all, i);
    } else {
      assert all == data;
      LinesWithoutBreak(data);
      assert data[t.advance..] + more == [];
    }
  }

  /**
   * When the split function asks for more. Before end of input: exactly when there is no
   * terminator yet, or the only one is a CR in last place, where one more octet decides.
   */
  lemma NeedMoreExactly(data: Bytes, atEOF: bool)
    ensures SplitLine(data, atEOF).NeedMore? <==>
              if atEOF then data == []
              else OneLine(data) || (data[|data| - 1] == CR && NoBreaks(data, |data| - 1))
  {
  }

  /** Cutting a token off the buffer early loses a CRLF pair: why a final CR must wait. */
  lemma SplittingAtAFinalCarriageReturnForgesALine(head: Bytes)
    requires OneLine(head)
    ensures Lines(head + [CR, LF]) == [head]
    ensures Lines(head + [CR]) + Lines([LF]) == [head, []]
  {
    var s := head + [CR, LF];
    assert s[..|head|] == head && s[|head| + 2..] == [];
    LinesUpToBreak(s, |head|);
    var t := head + [CR];
    assert t[..|head|] == head && t[|head| + 1..] == [];
    LinesUpToBreak(t, |head|);
    assert Lines([LF]) == [[]] + Lines([LF][1..]);
  }

  // ------------------------------------------------------------------- driver

  /**
   * The scanner: octets buffered but not yet cut into lines, the reads still to come,
   * and whether the reader has ended.
   */
  class Scanner {
    var buffer: Bytes
    var chunks: seq<Bytes>
    var ended: bool
    const broken: bool  // the reader ends in an error rather than a clean end of input

    constructor (chunks: seq<Bytes>, broken: bool)
      ensures Valid() && Remaining() == Concat(chunks) && this.broken == broken
    {
      this.buffer, this.chunks, this.ended, this.broken := [], chunks, false, broken;
    }

    ghost predicate Valid()
      reads this
    {
      ended ==> chunks == []
    }

    /** Everything not yet returned as a line. */
    ghost function Remaining(): Bytes
      reads this
    {
      buffer + Concat(chunks)
    }

    /**
     * The next line of the stream. Nothing about how the stream was cut into reads
     * shows in the result: it is the first reference line of what remains.
     */
    method Scan() returns (line: Option<Bytes>)
      requires Valid()
      modifies this
      ensures Valid()
      ensures line.None? <==> old(Remaining()) == []
      ensures line.None? ==> Remaining() == []
      ensures line.Some? ==>
                && Lines(old(Remaining())) == [line.value] + Lines(Remaining())
                && |Remaining()| < |old(Remaining())|
    {
      while true
        invariant Valid() && Remaining() == old(Remaining())
        decreases if ended then 0 else 1, |chunks|
      {
        if |buffer| > 0 || ended {
          var split := ScanFrameLines(buffer, ended);
          if split.Token? {
            TokenIsFirstLine(buffer, ended, Concat(chunks));
            line := Some(split.line);
            buffer := buffer[split.advance..];
            return;
          }
        }
        if ended {
          NeedMoreExactly(buffer, true);
          return None;
        }
        if |chunks| == 0 {
          ended := true;
        } else {
          assert buffer + Concat(chunks) == buffer + chunks[0] + Concat(chunks[1..]);
          buffer, chunks := buffer + chunks[0], chunks[1..];
        }
      }
    }
  }
}
