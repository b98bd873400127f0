/**
 * A declarative reading of an event stream, after section 9.2.6 ("Interpreting an event
 * stream") of the WHATWG HTML Living Standard. No parser state: a stream is lines, lines
 * fall into groups at blank lines, and a group is read by looking for its fields.
 */
module EventStream {
  import opened Octets
  import opened LineScanner
  import opened Codec

  const BOM: Bytes := "\U{EF}\U{BB}\U{BF}"

  function StripBOM(s: Bytes): Bytes {
    if |s| >= 3 && s[..3] == BOM then s[3..] else s
  }

  /** A byte order mark at the very beginning goes, once, and nothing else does. */
  lemma StripBOMOnce(s: Bytes)
    ensures
      var mark := [0xEF as char, 0xBB as char, 0xBF as char];
      StripBOM(mark + s) == s && (!(mark <= s) ==> StripBOM(s) == s)
  {
    var t := BOM + s;
    assert t[..3] == BOM && t[3..] == s;
  }

  predicate IsComment(line: Bytes) {
    line != [] && line[0] == COLON
  }

  predicate HasField(line: Bytes, name: Bytes) {
    !IsComment(line) && ParseFieldLine(line).0 == name
  }

  function Value(line: Bytes): Bytes {
    ParseFieldLine(line).1
  }

  // -------------------------------------------------------- one group of lines

  /** The values of the `data` fields, in order. */
  function DataValues(group: seq<Bytes>): seq<Bytes> {
    if group == [] then [] else
      var line := group[|group| - 1];
      DataValues(group[..|group| - 1]) + if HasField(line, FIELD_DATA) then [Value(line)] else []
  }

  /** The value of the last `event` field, empty when there is none. */
  function LastType(group: seq<Bytes>): Bytes {
    if group == [] then [] else
      var line := group[|group| - 1];
      if HasField(line, FIELD_EVENT) then Value(line) else LastType(group[..|group| - 1])
  }

  /** The value of the last `id` field without a NUL, or the id that held before. */
  function LastId(prior: Bytes, group: seq<Bytes>): Bytes {
    if group == [] then prior else
      var line := group[|group| - 1];
      if HasField(line, FIELD_ID) && NUL !in Value(line) then Value(line)
      else LastId(prior, group[..|group| - 1])
  }

  // ------------------------------------------------------------ a whole stream

  predicate NoBlank(lines: seq<Bytes>) {
    forall k :: 0 <= k < |lines| ==> lines[k] != []
  }

  function FirstBlank(lines: seq<Bytes>): (i: nat)
    ensures i <= |lines| && NoBlank(lines[..i])
    ensures i < |lines| ==> lines[i] == []
  {
    if lines == [] || lines[0] == [] then 0 else
      var i := FirstBlank(lines[1..]) + 1;
      assert lines[..i] == [lines[0]] + lines[1..][..i - 1];
      i
  }

  /** The groups that a blank line ends; lines after the last blank one are no group. */
  function Groups(lines: seq<Bytes>): seq<seq<Bytes>> {
    var i := FirstBlank(lines);
    if i == |lines| then [] else [lines[..i]] + Groups(lines[i + 1..])
  }

  function GroupEvents(group: seq<Bytes>, id: Bytes): seq<Event> {
    if DataValues(group) == [] then []
    else [Event(id, LastType(group), JoinLF(DataValues(group)))]
  }

  function Interpret(groups: seq<seq<Bytes>>, prior: Bytes): seq<Event> {
    if groups == [] then [] else
      var id := LastId(prior, groups[0]);
      GroupEvents(groups[0], id) + Interpret(groups[1..], id)
  }

  function Events(stream: Bytes): seq<Event> {
    Interpret(Groups(Lines(StripBOM(stream))), [])
  }

  // --------------------------------------------------------------------- retry

  predicate AcceptsRetry(value: Bytes) {
    IsDigits(value) && ParseDigits(value) <= INT64_MAX
  }

  /** The delay kept for an accepted value: milliseconds scaled in 64-bit arithmetic. */
  function RetryNanos(value: Bytes): int
    requires IsDigits(value)
  {
    Wrap64(ParseDigits(value) * NANOS_PER_MILLI)
  }

  function LastRetry(prior: int, lines: seq<Bytes>): int
    decreases lines
  {
    if lines == [] then prior
    else LastRetry(RetryAfter(prior, lines[0]), lines[1..])
  }

  function RetryAfter(prior: int, line: Bytes): int {
    if HasField(line, FIELD_RETRY) && AcceptsRetry(Value(line)) then RetryNanos(Value(line)) else prior
  }

  const MAX_EXACT_RETRY := 9_223_372_036_854

  /**
   * The source multiplies without an overflow check. The delay kept for an accepted
   * value is the delay that was asked for exactly up to 9223372036854 ms, the largest
   * number of milliseconds a nanosecond count holds.
   */
  lemma RetryIsExactIff(value: Bytes)
    requires AcceptsRetry(value)
    ensures RetryNanos(value) == ParseDigits(value) * NANOS_PER_MILLI
            <==> ParseDigits(value) <= MAX_EXACT_RETRY
  {
  }

  /** One millisecond more and the kept delay is negative. */
  lemma RetryCanTurnNegative()
    ensures AcceptsRetry(FormatNat(MAX_EXACT_RETRY + 1))
    ensures RetryNanos(FormatNat(MAX_EXACT_RETRY + 1)) < 0
  {
    ParseInvertsFormat(MAX_EXACT_RETRY + 1);
  }

  // ---------------------------------------------------------------------- laws

  lemma FirstBlankAt(lines: seq<Bytes>, i: nat)
    requires i <= |lines| && NoBlank(lines[..i])
    requires i < |lines| ==> lines[i] == []
    ensures FirstBlank(lines) == i
  {
    var j := FirstBlank(lines);
    assert forall k :: 0 <= k < i ==> lines[..i][k] == lines[k];
    assert forall k :: 0 <= k < j ==> lines[..j][k] == lines[k];
  }

  lemma {:induction false} GroupsAtBlank(group: seq<Bytes>, rest: seq<Bytes>)
    requires NoBlank(group)
    ensures Groups(group) == []
    ensures Groups(group + [[]] + rest) == [group] + Groups(rest)
  {
    assert group[..|group|] == group;
    FirstBlankAt(group, |group|);
    var all := group + [[]] + rest;
    assert all[..|group|] == group && all[|group| + 1..] == rest;
    FirstBlankAt(all, |group|);
  }

  /** Reading one line more, field by field. */
  lemma ReadOneMore(group: seq<Bytes>, line: Bytes, prior: Bytes)
    ensures DataValues(group + [line]) ==
              if HasField(line, FIELD_DATA) then DataValues(group) + [Value(line)] else DataValues(group)
    ensures LastType(group + [line]) == if HasField(line, FIELD_EVENT) then Value(line) else LastType(group)
    ensures LastId(prior, group + [line]) ==
              if HasField(line, FIELD_ID) && NUL !in Value(line) then Value(line) else LastId(prior, group)
  {
  }

  lemma {:induction false} JoinIsUnlines(values: seq<Bytes>)
    requires values != []
    ensures Unlines(values) == JoinLF(values) + [LF]
  {
    if |values| > 1 {
      JoinIsUnlines(values[1..]);
    } else {
      assert Unlines(values[1..]) == [];
    }
  }

  /**
   * Stripping the mark from the first line is stripping it from the stream, except that
   * a stream holding nothing but the mark then has one blank line instead of none.
   */
  lemma StripBOMFromFirstLine(s: Bytes, line: Bytes, rest: seq<Bytes>)
    requires Lines(s) == [line] + rest
    ensures Lines(StripBOM(s)) == [StripBOM(line)] + rest
            || (Lines(StripBOM(s)) == [] && StripBOM(line) == [] && rest == [])
  {
    hide Lines, FirstBreak, AfterFirstLine;
    var i, n := FirstBreak(s), AfterFirstLine(s);
    assert s != [] by {
      EmptyHasNoLines();
    }
    FirstLine(s);
    assert line == Lines(s)[0] == s[..i];
    assert rest == Lines(s)[1..] == Lines(s[n..]);
    if |s| >= 3 && s[..3] == BOM {
      assert !IsBreak(s[..3][0]) && !IsBreak(s[..3][1]) && !IsBreak(s[..3][2]);
      assert s[..3][0] == s[0] && s[..3][1] == s[1] && s[..3][2] == s[2];
      assert i >= 3;
      var t := s[3..];
      DropFromFirstLine(s, 3);
      assert line[..3] == s[..3] && StripBOM(line) == line[3..] == t[..i - 3];
      if t == [] {
        assert s[n..] == [];
        EmptyHasNoLines();
      } else {
        FirstLine(t);
      }
    } else {
      assert i >= 3 ==> line[..3] == s[..3];
    }
  }

  lemma EmptyHasNoLines()
    ensures Lines([]) == []
  {
  }

  /** At a blank line the standard reads the group before it, then goes on. */
  lemma ReadBlank(group: seq<Bytes>, rest: seq<Bytes>, prior: Bytes, retry: int)
    requires NoBlank(group)
    ensures
      var id := LastId(prior, group);
      Interpret(Groups(group + ([[]] + rest)), prior) == GroupEvents(group, id) + Interpret(Groups(rest), id)
    ensures LastRetry(retry, [[]] + rest) == LastRetry(retry, rest)
  {
    var blank: Bytes := [];
    assert group + ([blank] + rest) == group + [blank] + rest;
    GroupsAtBlank(group, rest);
    assert ([group] + Groups(rest))[1..] == Groups(rest);
    assert ([blank] + rest)[1..] == rest && RetryAfter(retry, blank) == retry;
  }

  lemma RetryCons(retry: int, line: Bytes, rest: seq<Bytes>)
    ensures LastRetry(retry, [line] + rest) == LastRetry(RetryAfter(retry, line), rest)
  {
    assert ([line] + rest)[1..] == rest;
  }

  /** A blank line with nothing before it delivers nothing and changes nothing. */
  lemma BlankLineAlone(prior: Bytes, retry: int)
    ensures Interpret(Groups([[]]), prior) == [] == Interpret(Groups([]), prior)
    ensures LastRetry(retry, [[]]) == retry == LastRetry(retry, [])
  {
  }

  /** Two lines and a blank one. */
  lemma TwoLines(a: Bytes, b: Bytes)
    requires OneLine(a) && OneLine(b)
    ensures Lines(a + "\n" + (b + "\n" + "\n")) == [a, b, []]
  {
    hide Lines;
    var empty: Bytes := [];
    OneLineChars(a);
    OneLineChars(b);
    LineEndings(a, b + "\n" + "\n");
    LineEndings(b, "\n");
    LineEndings(empty, empty);
    assert empty + "\n" + empty == "\n";
  }

  lemma NoMark(s: Bytes)
    requires s != [] && s[0] as int != 0xEF
    ensures StripBOM(s) == s
  {
  }

  /** One group of two lines, and nothing after it. */
  lemma OneGroupReads(a: Bytes, b: Bytes)
    requires OneLine(a) && OneLine(b) && a != [] && b != [] && a[0] as int != 0xEF
    ensures Events(a + "\n" + (b + "\n" + "\n")) == GroupEvents([a, b], LastId([], [a, b]))
  {
    hide Lines, StripBOM, Groups, Interpret, GroupEvents, LastId, LastRetry;
    NoMark(a + "\n" + (b + "\n" + "\n"));
    TwoLines(a, b);
    ReadBlank([a, b], [], [], 0);
    assert [a, b] + ([[]] + []) == [a, b, []];
    BlankLineAlone(LastId([], [a, b]), 0);
  }

  lemma OneLineChars(s: Bytes)
    requires OneLine(s)
    ensures forall c :: c in s ==> c != '\r' && c != '\n'
  {
  }

  /** The space after the colon is optional: values without it are read as they stand. */
  lemma BareFieldsRead(kind: Bytes, data: Bytes)
    requires OneLine(kind) && OneLine(data)
    requires (kind != [] ==> kind[0] != ' ') && (data != [] ==> data[0] != ' ')
    ensures Events(("event:" + kind) + "\n" + (("data:" + data) + "\n" + "\n")) == [Event([], kind, data)]
  {
    hide Events, GroupEvents, Lines;
    var a, b := "event:" + kind, "data:" + data;
    OneGroupReads(a, b);
    BareGroup(kind, data);
  }

  lemma NothingInGroup()
    ensures DataValues([]) == [] && LastType([]) == [] && LastId([], []) == []
  {
  }

  lemma JoinOne(s: Bytes)
    ensures JoinLF([s]) == s
  {
  }

  lemma BareGroup(kind: Bytes, data: Bytes)
    requires (kind != [] ==> kind[0] != ' ') && (data != [] ==> data[0] != ' ')
    ensures
      var a, b := "event:" + kind, "data:" + data;
      GroupEvents([a, b], LastId([], [a, b])) == [Event([], kind, data)]
  {
    hide ParseFieldLine, TrimPad, DataValues, LastType, LastId;
    var a, b := "event:" + kind, "data:" + data;
    NothingInGroup();
    JoinOne(data);
    FieldLineShapes("event", kind);
    FieldLineShapes("data", data);
    assert "event" + ":" + kind == a && "data" + ":" + data == b;
    assert a[0] == 'e' && b[0] == 'd';
    var none: seq<Bytes> := [];
    ReadOneMore(none, a, []);
    ReadOneMore([a], b, []);
    assert none + [a] == [a] && [a] + [b] == [a, b];
  }

  // ------------------------------------------------------------- cut-off streams

  /** How the first line reads once more octets have arrived. */
  lemma FirstLineGrows(p: Bytes, q: Bytes) returns (more: Bytes)
    requires FirstBreak(p) < |p|
    ensures
      var line, rest := p[..FirstBreak(p)], p[AfterFirstLine(p)..];
      && Lines(p) == [line] + Lines(rest)
      && Lines(p + q) == [line] + Lines(rest + more)
  {
    hide Lines, FirstBreak;
    var i, n, all := FirstBreak(p), AfterFirstLine(p), p + q;
    FirstBreakAt(all, i);
    FirstLine(p);
    FirstLine(all);
    assert all[..i] == p[..i];
    more := if AfterFirstLine(all) == n then q else q[1..];
    assert all[AfterFirstLine(all)..] == p[n..] + more;
  }

  lemma {:induction false} CutGroupsReadPrefix(group: seq<Bytes>, prior: Bytes, p: Bytes, q: Bytes)
    requires NoBlank(group)
    ensures Interpret(Groups(group + Lines(p)), prior) <= Interpret(Groups(group + Lines(p + q)), prior)
    decreases |p|
  {
    hide Lines, Groups, LastId;
    var none: seq<Bytes> := [];
    if FirstBreak(p) == |p| {
      if p == [] {
        EmptyHasNoLines();
      } else {
        FirstLine(p);
        assert p[..|p|] == p && p[|p|..] == [];
        EmptyHasNoLines();
      }
      assert NoBlank(group + Lines(p));
      GroupsAtBlank(group + Lines(p), none);
    } else {
      var line, rest := p[..FirstBreak(p)], p[AfterFirstLine(p)..];
      var more := FirstLineGrows(p, q);
      if line == [] {
        var id := LastId(prior, group);
        ReadBlank(group, Lines(rest), prior, 0);
        ReadBlank(group, Lines(rest + more), prior, 0);
        CutGroupsReadPrefix(none, id, rest, more);
        assert none + Lines(rest) == Lines(rest) && none + Lines(rest + more) == Lines(rest + more);
      } else {
        Assoc(group, [line], Lines(rest));
        Assoc(group, [line], Lines(rest + more));
        CutGroupsReadPrefix(group + [line], prior, rest, more);
      }
    }
  }

  /**
   * A stream cut at any octet, even inside a terminator or the mark, reads as the first
   * events of the whole stream: no event is invented and none comes out truncated.
   */
  lemma CutStreamReadsPrefix(p: Bytes, q: Bytes)
    ensures Events(p) <= Events(p + q)
  {
    hide Lines, Groups;
    var none: seq<Bytes> := [];
    var s, t := StripBOM(p), StripBOM(p + q);
    assert forall ls: seq<Bytes> :: none + ls == ls;
    if |p| >= 3 {
      assert (p + q)[..3] == p[..3];
      assert t == s + q by {
        assert p[..3] == BOM ==> (p + q)[3..] == p[3..] + q;
      }
      CutGroupsReadPrefix(none, [], s, q);
    } else if t == p + q {
      CutGroupsReadPrefix(none, [], p, q);
    } else {
      assert forall k :: 0 <= k < |p| ==> p[k] == (p + q)[..3][k];
      FirstBreakAt(p, |p|);
      if p == [] {
        EmptyHasNoLines();
      } else {
        FirstLine(p);
        assert p[..|p|] == p && p[|p|..] == [];
        EmptyHasNoLines();
      }
      GroupsAtBlank(Lines(p), none);
    }
  }
}
