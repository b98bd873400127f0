/** The streaming parser (sse/source.go), proved against the declarative reading. */
module SseSource {
  import opened Octets
  import opened LineScanner
  import opened Codec
  import opened EventStream

  /** What `Next` answers: an event, a clean end, or the reader's own failure. */
  datatype Next = Got(event: Event) | NoMoreEvents | ScanFailed

  class Source {
    const scanner: Scanner
    var dataBuf: Bytes
    var eventType: Bytes
    var lastEventID: Bytes
    var retry: int
    var bomChecked: bool

    ghost var group: seq<Bytes>  // the lines since the last blank one
    ghost var prior: Bytes       // the id that held at that blank line

    constructor (scanner: Scanner)
      requires scanner.Valid()
      ensures Valid() && this.scanner == scanner
      ensures Upcoming() == Events(scanner.Remaining())
      ensures RetryAtEnd() == LastRetry(0, Lines(StripBOM(scanner.Remaining())))
    {
      this.scanner := scanner;
      dataBuf, eventType, lastEventID, retry, bomChecked := [], [], [], 0, false;
      group, prior := [], [];
      new;
      assert group + PendingLines() == PendingLines();
    }

    /** The parser's buffers are what the standard reads in the unfinished group. */
    ghost predicate Valid()
      reads this, scanner
    {
      && scanner.Valid()
      && NoBlank(group)
      && (!bomChecked ==> group == [])
      && dataBuf == Unlines(DataValues(group))
      && eventType == LastType(group)
      && lastEventID == LastId(prior, group)
    }

    ghost function PendingLines(): seq<Bytes>
      reads this, scanner
    {
      Lines(if bomChecked then scanner.Remaining() else StripBOM(scanner.Remaining()))
    }

    /** The events the standard reads in the unfinished group and the rest of the stream. */
    ghost function Upcoming(): seq<Event>
      reads this, scanner
    {
      Interpret(Groups(group + PendingLines()), prior)
    }

    ghost function RetryAtEnd(): int
      reads this, scanner
    {
      LastRetry(retry, PendingLines())
    }

    method StripMark(line: Bytes) returns (r: Bytes)
      modifies this`bomChecked
      ensures bomChecked
      ensures r == if old(bomChecked) then line else StripBOM(line)
    {
      if bomChecked {
        return line;
      }
      bomChecked := true;
      return StripBOM(line);
    }

    method ConsumeID(value: Bytes)
      modifies this`lastEventID
      ensures lastEventID == if NUL in value then old(lastEventID) else value
    {
      if NUL in value {
        return;
      }
      lastEventID := value;
    }

    method ConsumeRetry(value: Bytes)
      modifies this`retry
      ensures retry == if AcceptsRetry(value) then RetryNanos(value) else old(retry)
      ensures retry == if IsDigits(value) && ParseDigits(value) <= 0x7FFF_FFFF_FFFF_FFFF
                       then Wrap64(ParseDigits(value) * 1_000_000) else old(retry)
    {
      var digits := IsASCIIDigits(value);
      if !digits {
        return;
      }
      var ms := ParseDigits(value);
      if ms > INT64_MAX {
        return;
      }
      retry := Wrap64(ms * NANOS_PER_MILLI);
    }

    method ConsumeField(name: Bytes, value: Bytes)
      modifies this`eventType, this`dataBuf, this`lastEventID, this`retry
      ensures eventType == if name == FIELD_EVENT then value else old(eventType)
      ensures dataBuf == if name == FIELD_DATA then old(dataBuf) + (value + [LF]) else old(dataBuf)
      ensures lastEventID == if name == FIELD_ID && NUL !in value then value else old(lastEventID)
      ensures retry == if name == FIELD_RETRY && AcceptsRetry(value) then RetryNanos(value) else old(retry)
    {
      if name == FIELD_EVENT {
        eventType := value;
      } else if name == FIELD_DATA {
        dataBuf := dataBuf + value;
        dataBuf := dataBuf + [LF];
      } else if name == FIELD_ID {
        ConsumeID(value);
      } else if name == FIELD_RETRY {
        ConsumeRetry(value);
      }
    }

    /** Reads one non-blank line into the unfinished group. */
    method ConsumeLine(line: Bytes)
      requires Valid() && bomChecked && line != []
      modifies this
      ensures Valid() && bomChecked && prior == old(prior)
      ensures group == old(group) + [line]
      ensures retry == RetryAfter(old(retry), line)
    {
      hide DataValues, LastType, LastId, Unlines, ParseFieldLine;
      group := group + [line];
      ReadOneMore(old(group), line, prior);
      UnlinesSnoc(DataValues(old(group)), Value(line));
      if line[0] == COLON {
        assert IsComment(line);
        return;
      }
      var field := ParseFieldLine(line);
      ConsumeField(field.0, field.1);
    }

    method Dispatch() returns (ev: Option<Event>)
      requires Valid() && bomChecked
      modifies this
      ensures Valid() && bomChecked
      ensures group == [] && prior == lastEventID == old(lastEventID) && retry == old(retry)
      ensures GroupEvents(old(group), old(lastEventID)) == if ev.None? then [] else [ev.value]
      ensures ev.Some? ==> ev.value.id == lastEventID
    {
      var data, kind := dataBuf, eventType;
      ghost var values := DataValues(group);
      dataBuf, eventType := [], [];
      group, prior := [], lastEventID;
      if data == [] {
        return None;
      }
      JoinIsUnlines(values);
      assert data[|data| - 1] == LF && data[..|data| - 1] == JoinLF(values);
      return Some(Event(lastEventID, kind, data[..|data| - 1]));
    }

    method DropIncomplete()
      requires Valid()
      modifies this
      ensures Valid() && bomChecked == old(bomChecked)
      ensures retry == old(retry) && lastEventID == old(lastEventID)
      ensures dataBuf == [] && eventType == [] && group == []
    {
      group, prior := [], lastEventID;
      if dataBuf == [] && eventType == [] {
        return;
      }
      dataBuf, eventType := [], [];
    }

    /** The next line, without a leading mark; the standard reads on from it. */
    method NextLine() returns (line: Option<Bytes>)
      requires Valid()
      modifies this`bomChecked, scanner
      ensures Valid()
      ensures line.None? ==> PendingLines() == [] && scanner.Remaining() == []
      ensures line.None? ==> Upcoming() == [] == old(Upcoming()) && RetryAtEnd() == old(RetryAtEnd())
      ensures |scanner.Remaining()| <= |old(scanner.Remaining())|
      ensures line.Some? ==> bomChecked && |scanner.Remaining()| < |old(scanner.Remaining())|
      ensures line.Some? ==>
                && old(Upcoming()) == Interpret(Groups(group + ([line.value] + PendingLines())), prior)
                && old(RetryAtEnd()) == LastRetry(retry, [line.value] + PendingLines())
    {
      hide Lines, StripBOM, Groups, Interpret, LastRetry, LastId, LastType, DataValues, Unlines, Concat;
      ghost var before := scanner.Remaining();
      NothingLeft(group, prior);
      line := scanner.Scan();
      if line.None? {
        return;
      }
      ghost var rest := Lines(scanner.Remaining());
      StripBOMFromFirstLine(before, line.value, rest);
      BlankLineAlone(prior, retry);
      var blank: Bytes := [];
      assert [blank] + [] == [blank];
      assert bomChecked || (group + [] == [] && group + [blank] == [blank]);
      var stripped := StripMark(line.value);
      line := Some(stripped);
    }

    /**
     * Each call returns the next event of the declarative reading, and end of stream
     * exactly when that reading has no more. At a returned event, and only there, the
     * last-event-id is claimed: it is the id the event carries.
     */
    method ReadNext() returns (r: Next)
      requires Valid()
      modifies this, scanner
      ensures Valid()
      ensures r.Got? ==> old(Upcoming()) == [r.event] + Upcoming() && lastEventID == r.event.id
      ensures !r.Got? ==> old(Upcoming()) == [] == Upcoming() && PendingLines() == []
      ensures !r.Got? ==> r == if scanner.broken then ScanFailed else NoMoreEvents
      ensures RetryAtEnd() == old(RetryAtEnd())
      ensures |scanner.Remaining()| <= |old(scanner.Remaining())|
      ensures r.Got? ==> |scanner.Remaining()| < |old(scanner.Remaining())|
    {
      hide Lines, Interpret, Groups, LastId, LastType, LastRetry, DataValues, Unlines, GroupEvents, StripBOM, Concat;
      var line := NextLine();
      while line.Some?
        invariant Valid()
        invariant line.None? ==> Upcoming() == [] == old(Upcoming()) && PendingLines() == []
        invariant line.None? ==> RetryAtEnd() == old(RetryAtEnd())
        invariant line.Some? ==> bomChecked
        invariant line.Some? ==>
                    && old(Upcoming()) == Interpret(Groups(group + ([line.value] + PendingLines())), prior)
                    && old(RetryAtEnd()) == LastRetry(retry, [line.value] + PendingLines())
        invariant |scanner.Remaining()| <= |old(scanner.Remaining())|
        invariant line.Some? ==> |scanner.Remaining()| < |old(scanner.Remaining())|
        decreases |scanner.Remaining()|, line.Some?
      {
        if line.value == [] {
          ReadBlank(group, PendingLines(), prior, retry);
          var ev := Dispatch();
          assert group + PendingLines() == PendingLines();
          if ev.Some? {
            return Got(ev.value);
          }
        } else {
          Assoc(group, [line.value], PendingLines());
          RetryCons(retry, line.value, PendingLines());
          ConsumeLine(line.value);
        }
        line := NextLine();
      }
      if scanner.broken {
        return ScanFailed;
      }
      DropIncomplete();
      BlankLineAlone(prior, retry);
      assert group + PendingLines() == [];
      return NoMoreEvents;
    }
  }

  /** An unfinished group with no lines after it delivers nothing. */
  lemma NothingLeft(group: seq<Bytes>, prior: Bytes)
    requires NoBlank(group)
    ensures Lines([]) == [] && StripBOM([]) == [] && Interpret(Groups(group + []), prior) == []
  {
    assert group + [] == group;
    GroupsAtBlank(group, []);
  }

  /** A caller's loop: read until the source says it has no more. */
  method ReadAll(chunks: seq<Bytes>, broken: bool) returns (events: seq<Event>, retry: int, end: Next)
    ensures events == Events(Concat(chunks))
    ensures retry == LastRetry(0, Lines(StripBOM(Concat(chunks))))
    ensures end == if broken then ScanFailed else NoMoreEvents
  {
    hide Lines, Interpret, Groups, LastId, Concat;
    var scanner := new Scanner(chunks, broken);
    var src := new Source(scanner);
    ghost var all, retryAtEnd := src.Upcoming(), src.RetryAtEnd();
    events := [];
    end := src.ReadNext();
    while end.Got?
      invariant src.Valid() && src.scanner == scanner && fresh(src) && fresh(scanner)
      invariant end.Got? ==> all == events + ([end.event] + src.Upcoming())
      invariant !end.Got? ==> all == events && src.PendingLines() == []
      invariant !end.Got? ==> end == if scanner.broken then ScanFailed else NoMoreEvents
      invariant src.RetryAtEnd() == retryAtEnd
      decreases |scanner.Remaining()|, end.Got?
    {
      Assoc(events, [end.event], src.Upcoming());
      events := events + [end.event];
      end := src.ReadNext();
    }
    retry := src.retry;
  }
}
