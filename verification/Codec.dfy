/** The `text/event-stream` printer and its field-line parser (sse/codec.go). */
module Codec {
  import opened Octets
  import opened LineScanner

  /** One event on its way to a client: optional id, name, payload (event.go). */
  datatype Event = Event(id: Bytes, event: Bytes, data: Bytes)

  const FIELD_EVENT: Bytes := "event"
  const FIELD_DATA: Bytes := "data"
  const FIELD_ID: Bytes := "id"
  const FIELD_RETRY: Bytes := "retry"
  const COLON: Byte := ':'
  const SPACE: Byte := ' '
  const PAD: Bytes := ": "

  // ------------------------------------------------------------- field values

  predicate Forbidden(c: Byte) {
    c == CR || c == LF || c == NUL
  }

  predicate Clean(s: Bytes) {
    forall c :: c in s ==> !Forbidden(c)
  }

  function SanitizeFieldValue(value: Bytes): (r: Bytes)
    ensures Clean(r)
    ensures Clean(value) <==> r == value
    ensures r == [] <==> forall c :: c in value ==> Forbidden(c)
    ensures |r| <= |value|
  {
    if value == [] then []
    else if Forbidden(value[0]) then SanitizeFieldValue(value[1..])
    else [value[0]] + SanitizeFieldValue(value[1..])
  }

  /** CR, LF and NUL go, every other octet stays. */
  lemma SanitizeFirst(c: Byte, s: Bytes)
    ensures SanitizeFieldValue([c] + s) ==
              (if c == '\r' || c == '\n' || c == '\0' then [] else [c]) + SanitizeFieldValue(s)
  {
    assert ([c] + s)[1..] == s;
  }

  /** Every octet is judged alone, and those that stay keep their order. */
  lemma {:induction false} SanitizeAppend(a: Bytes, b: Bytes)
    ensures SanitizeFieldValue(a + b) == SanitizeFieldValue(a) + SanitizeFieldValue(b)
  {
    if a == [] {
      assert a + b == b;
    } else {
      hide SanitizeFieldValue;
      var c, rest := a[0], a[1..];
      assert a == [c] + rest;
      Assoc([c], rest, b);
      SanitizeFirst(c, rest + b);
      SanitizeFirst(c, rest);
      SanitizeAppend(rest, b);
      Assoc(if c == '\r' || c == '\n' || c == '\0' then [] else [c], SanitizeFieldValue(rest), SanitizeFieldValue(b));
    }
  }

  // ------------------------------------------------------------------ payloads

  /** `strings.ReplaceAll(s, "\r\n", "\n")`. */
  function ReplaceCRLF(s: Bytes): Bytes {
    if s == [] then []
    else if |s| > 1 && s[0] == CR && s[1] == LF then [LF] + ReplaceCRLF(s[2..])
    else [s[0]] + ReplaceCRLF(s[1..])
  }

  /** `strings.ReplaceAll(s, "\r", "\n")`. */
  function ReplaceCR(s: Bytes): Bytes {
    if s == [] then [] else [if s[0] == CR then LF else s[0]] + ReplaceCR(s[1..])
  }

  /** A payload as it reads on the other side: every terminator is an LF. */
  function Normalize(s: Bytes): Bytes {
    ReplaceCR(ReplaceCRLF(s))
  }

  /** `strings.Split(s, "\n")`. */
  function SplitLF(s: Bytes): (lines: seq<Bytes>)
    ensures lines != []
    ensures forall k :: 0 <= k < |lines| ==> LF !in lines[k]
  {
    if s == [] then [[]]
    else if s[0] == LF then [[]] + SplitLF(s[1..])
    else
      var rest := SplitLF(s[1..]);
      [[s[0]] + rest[0]] + rest[1..]
  }

  function JoinLF(lines: seq<Bytes>): Bytes {
    if lines == [] then []
    else if |lines| == 1 then lines[0]
    else lines[0] + [LF] + JoinLF(lines[1..])
  }

  function SplitPayloadLines(payload: Bytes): seq<Bytes> {
    if payload == [] then [[]] else SplitLF(Normalize(payload))
  }

  lemma {:induction false} JoinInvertsSplit(s: Bytes)
    ensures JoinLF(SplitLF(s)) == s
  {
    if s != [] {
      JoinInvertsSplit(s[1..]);
      var rest := SplitLF(s[1..]);
      if s[0] == LF {
        assert ([[]] + rest)[1..] == rest;
        assert JoinLF([[]] + rest) == [LF] + JoinLF(rest);
      } else {
        var lines := [[s[0]] + rest[0]] + rest[1..];
        assert lines[1..] == rest[1..];
        assert JoinLF(lines) == [s[0]] + JoinLF(rest);
      }
      assert s == [s[0]] + s[1..];
    }
  }

  /**
   * The printer's three-pass split (two replacements, then `Split`) and the parser's
   * one-pass scanner see the same lines; the printer has one more, empty, exactly
   * when the payload is empty or ends in a terminator.
   */
  lemma {:induction false} WriterAndReaderAgreeOnLines(payload: Bytes)
    ensures SplitPayloadLines(payload) == Lines(payload) + UnfinishedLine(payload)
  {
    hide Normalize, SplitLF, SplitPayloadLines;
    var p := payload;
    if p == [] {
      assert SplitPayloadLines(p) == [[]] by {
        EmptyPayloadSplits(p);
      }
    } else {
      var n := if |p| > 1 && p[0] == CR && p[1] == LF then 2 else 1;
      var rest, owed := Lines(p[n..]), UnfinishedLine(p[n..]);
      WriterAndReaderAgreeOnLines(p[n..]);
      if IsBreak(p[0]) {
        SplitAfterBreak(p, n);
        Assoc([[]], rest, owed);
      } else {
        SplitAfterOther(p);
        if p[1..] == [] {
          assert rest + owed == [[]];
        }
        ExtendAppend(p[0], rest, owed);
      }
    }
  }

  /** The empty line a printer still owes after a final terminator. */
  function UnfinishedLine(payload: Bytes): seq<Bytes> {
    if payload == [] || IsBreak(payload[|payload| - 1]) then [[]] else []
  }

  lemma ExtendAppend(c: Byte, a: seq<Bytes>, b: seq<Bytes>)
    ensures a != [] ==> Extend(c, a + b) == Extend(c, a) + b
    ensures Extend(c, [[]]) == Extend(c, [])
  {
    if a != [] {
      assert (a + b)[0] == a[0] && (a + b)[1..] == a[1..] + b;
      Assoc([[c] + a[0]], a[1..], b);
    }
    var empty: Bytes := [];
    assert [c] + empty == [c] && [empty][1..] == [];
  }

  lemma SplitAfterBreak(p: Bytes, n: nat)
    requires 0 < n <= |p| && IsBreak(p[0])
    requires n == if |p| > 1 && p[0] == CR && p[1] == LF then 2 else 1
    ensures SplitPayloadLines(p) == [[]] + SplitPayloadLines(p[n..])
  {
    var q := ReplaceCRLF(p);
    assert IsBreak(q[0]) && q[1..] == ReplaceCRLF(p[n..]);
    var m := Normalize(p);
    assert m == [LF] + Normalize(p[n..]);
    assert m[1..] == Normalize(p[n..]);
    assert SplitLF(m) == [[]] + SplitLF(m[1..]);
    EmptyPayloadSplits(p[n..]);
  }

  lemma EmptyPayloadSplits(p: Bytes)
    ensures SplitPayloadLines(p) == SplitLF(Normalize(p))
    ensures p == [] ==> SplitPayloadLines(p) == [[]]
  {
  }

  lemma SplitAfterOther(p: Bytes)
    requires p != [] && !IsBreak(p[0])
    ensures SplitPayloadLines(p) == Extend(p[0], SplitPayloadLines(p[1..]))
  {
    var q := ReplaceCRLF(p);
    assert q[0] == p[0] && q[1..] == ReplaceCRLF(p[1..]);
    var m := Normalize(p);
    assert m == [p[0]] + Normalize(p[1..]);
    assert m[1..] == Normalize(p[1..]);
    EmptyPayloadSplits(p[1..]);
  }

  lemma {:induction false} NormalizeKeepsOneLine(s: Bytes)
    requires CR !in s
    ensures Normalize(s) == s
  {
    if s != [] {
      NormalizeKeepsOneLine(s[1..]);
      assert s[0] in s;
      assert ReplaceCRLF(s)[1..] == ReplaceCRLF(s[1..]);
      assert s == [s[0]] + s[1..];
    }
  }

  lemma {:induction false} NormalizeLeavesNoCR(s: Bytes)
    ensures CR !in ReplaceCR(s)
    decreases |s|
  {
    if s != [] {
      NormalizeLeavesNoCR(s[1..]);
    }
  }

  /** Lines cut from a payload fit on a line each. */
  lemma PayloadLinesFit(payload: Bytes)
    ensures forall k :: 0 <= k < |SplitPayloadLines(payload)| ==> OneLine(SplitPayloadLines(payload)[k])
  {
    if payload != [] {
      NormalizeLeavesNoCR(ReplaceCRLF(payload));
      SplitInventsNothing(Normalize(payload));
    }
  }

  lemma {:induction false} SplitInventsNothing(s: Bytes)
    ensures forall k, c :: 0 <= k < |SplitLF(s)| && c in SplitLF(s)[k] ==> c in s
  {
    if s != [] {
      SplitInventsNothing(s[1..]);
      var rest := SplitLF(s[1..]);
      assert s[0] in s && forall c :: c in s[1..] ==> c in s;
      assert SplitLF(s)[1..] == if s[0] == LF then rest else rest[1..];
    }
  }

  // -------------------------------------------------------------------- frames

  function Field(name: Bytes, value: Bytes): Bytes {
    name + PAD + value
  }

  /** The lines of text that end in LF, end to end. */
  function Unlines(lines: seq<Bytes>): Bytes {
    if lines == [] then [] else lines[0] + [LF] + Unlines(lines[1..])
  }

  lemma {:induction false} UnlinesAppend(a: seq<Bytes>, b: seq<Bytes>)
    ensures Unlines(a + b) == Unlines(a) + Unlines(b)
  {
    if a == [] {
      assert a + b == b;
    } else {
      UnlinesAppend(a[1..], b);
      assert (a + b)[1..] == a[1..] + b;
      Assoc(a[0] + [LF], Unlines(a[1..]), Unlines(b));
    }
  }

  lemma UnlinesSnoc(a: seq<Bytes>, line: Bytes)
    ensures Unlines(a + [line]) == Unlines(a) + (line + [LF])
  {
    UnlinesAppend(a, [line]);
    assert Unlines([line]) == line + [LF] + Unlines([line][1..]);
  }

  function DataFields(lines: seq<Bytes>): (r: seq<Bytes>)
    ensures |r| == |lines|
    ensures forall k :: 0 <= k < |lines| ==> r[k] == Field(FIELD_DATA, lines[k])
  {
    if lines == [] then [] else [Field(FIELD_DATA, lines[0])] + DataFields(lines[1..])
  }

  function IdFields(ev: Event): seq<Bytes> {
    if ev.id != [] then [Field(FIELD_ID, SanitizeFieldValue(ev.id))] else []
  }

  function EventFields(ev: Event): seq<Bytes> {
    if ev.event != [] then [Field(FIELD_EVENT, SanitizeFieldValue(ev.event))] else []
  }

  /** The field lines of one framed event, without the blank line that ends it. */
  function WireFields(ev: Event): seq<Bytes> {
    IdFields(ev) + EventFields(ev) + DataFields(SplitPayloadLines(ev.data))
  }

  function FrameText(ev: Event): Bytes {
    Unlines(WireFields(ev) + [[]])
  }

  method FrameLines(ev: Event) returns (b: Bytes)
    ensures b == FrameText(ev)
  {
    FrameTextByParts(ev);
    b := [];
    if ev.id != [] {
      b := WriteField(b, FIELD_ID, SanitizeFieldValue(ev.id));
    }
    assert b == Unlines(IdFields(ev));
    if ev.event != [] {
      b := WriteField(b, FIELD_EVENT, SanitizeFieldValue(ev.event));
    }
    assert b == Unlines(IdFields(ev)) + Unlines(EventFields(ev));
    b := WriteDataFields(b, SplitPayloadLines(ev.data));
    b := b + [LF];
  }

  method WriteDataFields(head: Bytes, lines: seq<Bytes>) returns (b: Bytes)
    ensures b == head + Unlines(DataFields(lines))
  {
    b := head;
    ghost var fields := DataFields(lines);
    for i := 0 to |lines|
      invariant b == head + Unlines(fields[..i])
    {
      UnlinesSnoc(fields[..i], fields[i]);
      assert fields[..i + 1] == fields[..i] + [fields[i]];
      b := WriteField(b, FIELD_DATA, lines[i]);
    }
    assert fields[..|lines|] == fields;
  }

  method WriteField(head: Bytes, name: Bytes, value: Bytes) returns (b: Bytes)
    ensures b == head + (Field(name, value) + [LF])
  {
    b := head + name;
    b := b + [COLON];
    b := b + [SPACE];
    b := b + value;
    b := b + [LF];
  }

  lemma FrameTextByParts(ev: Event)
    ensures FrameText(ev) ==
              Unlines(IdFields(ev)) + Unlines(EventFields(ev))
              + Unlines(DataFields(SplitPayloadLines(ev.data))) + [LF]
    ensures ev.id != [] ==> Unlines(IdFields(ev)) == Field(FIELD_ID, SanitizeFieldValue(ev.id)) + [LF]
    ensures ev.event != [] ==> Unlines(EventFields(ev)) == Field(FIELD_EVENT, SanitizeFieldValue(ev.event)) + [LF]
  {
    var i, e, d := IdFields(ev), EventFields(ev), DataFields(SplitPayloadLines(ev.data));
    UnlinesSnoc(i + e + d, []);
    UnlinesAppend(i + e, d);
    UnlinesAppend(i, e);
    UnlinesSnoc([], Field(FIELD_ID, SanitizeFieldValue(ev.id)));
    UnlinesSnoc([], Field(FIELD_EVENT, SanitizeFieldValue(ev.event)));
  }

  function CommentLine(text: Bytes): Bytes {
    PAD + SanitizeFieldValue(text)
  }

  function FrameComment(text: Bytes): Bytes {
    CommentLine(text) + [LF]
  }

  lemma FieldText(value: Bytes)
    ensures Field(FIELD_ID, value) + [LF] == "id: " + value + "\n"
    ensures Field(FIELD_EVENT, value) + [LF] == "event: " + value + "\n"
    ensures Field(FIELD_DATA, value) + [LF] == "data: " + value + "\n"
    ensures Field(FIELD_RETRY, value) + [LF] == "retry: " + value + "\n"
  {
    assert FIELD_ID + PAD == "id: " && FIELD_EVENT + PAD == "event: ";
    assert FIELD_DATA + PAD == "data: " && FIELD_RETRY + PAD == "retry: ";
  }

  /** An event on the wire, octet by octet; the data is spelt out for a payload of one line. */
  lemma EventFrameText(ev: Event)
    ensures FrameText(ev) ==
              (if ev.id != [] then "id: " + SanitizeFieldValue(ev.id) + "\n" else "")
              + (if ev.event != [] then "event: " + SanitizeFieldValue(ev.event) + "\n" else "")
              + Unlines(DataFields(SplitPayloadLines(ev.data))) + "\n"
    ensures (forall c :: c in ev.data ==> c != '\r' && c != '\n') ==>
              Unlines(DataFields(SplitPayloadLines(ev.data))) == "data: " + ev.data + "\n"
  {
    FrameTextByParts(ev);
    if forall c :: c in ev.data ==> c != '\r' && c != '\n' {
      OneLinePayload(ev.data);
    }
    OneDataField(ev.data);
    FieldText(SanitizeFieldValue(ev.id));
    FieldText(SanitizeFieldValue(ev.event));
    FieldText(ev.data);
    hide SplitPayloadLines, DataFields, SanitizeFieldValue, Field;
  }

  lemma OneDataField(data: Bytes)
    ensures Unlines(DataFields([data])) == Field(FIELD_DATA, data) + [LF]
  {
    UnlinesSnoc([], Field(FIELD_DATA, data));
    assert DataFields([data]) == [] + [Field(FIELD_DATA, data)];
  }

  lemma {:induction false} SplitWithoutLF(s: Bytes)
    requires LF !in s
    ensures SplitLF(s) == [s]
  {
    if s != [] {
      assert s[0] in s;
      SplitWithoutLF(s[1..]);
      assert s == [s[0]] + s[1..];
    }
  }

  lemma OneLinePayload(data: Bytes)
    requires forall c :: c in data ==> c != '\r' && c != '\n'
    ensures SplitPayloadLines(data) == [data]
  {
    NormalizeKeepsOneLine(data);
    SplitWithoutLF(data);
  }

  /** Comments and retries, octet by octet. */
  lemma PlainFrames(text: Bytes, d: Int64)
    ensures FrameComment(text) == ": " + SanitizeFieldValue(text) + "\n"
    ensures FrameRetry(d) == "retry: " + FormatNat(ClampedMillis(d)) + "\n\n"
  {
    var ms := FormatNat(ClampedMillis(d));
    FieldText(ms);
    Assoc("retry: " + ms, "\n", "\n");
  }

  // ------------------------------------------------------------------ durations

  const INT64_MIN := -0x8000_0000_0000_0000
  const INT64_MAX := 0x7FFF_FFFF_FFFF_FFFF

  type Int64 = x: int | INT64_MIN <= x <= INT64_MAX

  const NANOS_PER_MILLI := 1_000_000

  /** What a signed 64-bit register holds after an operation whose true result is `x`. */
  function Wrap64(x: int): (r: int)
    ensures -0x8000_0000_0000_0000 <= r < 0x8000_0000_0000_0000 && (x - r) % 0x1_0000_0000_0000_0000 == 0
    ensures INT64_MIN <= x <= INT64_MAX <==> r == x
  {
    var m := x % 0x1_0000_0000_0000_0000;
    if m > INT64_MAX then m - 0x1_0000_0000_0000_0000 else m
  }

  /** `max(d.Milliseconds(), 0)`: Go truncates toward zero, and negatives are clamped. */
  function ClampedMillis(d: Int64): (ms: nat)
    ensures d < 0 ==> ms == 0
    ensures d >= 0 ==> ms * 1_000_000 <= d < (ms + 1) * 1_000_000
  {
    if d < 0 then 0 else d / NANOS_PER_MILLI
  }

  function DigitOf(n: nat): Byte
    requires n < 10
  {
    '0' + n as char
  }

  function FormatNat(n: nat): (s: Bytes)
    ensures IsDigits(s)
  {
    if n < 10 then [DigitOf(n)] else FormatNat(n / 10) + [DigitOf(n % 10)]
  }

  predicate IsDigit(c: Byte) {
    '0' <= c <= '9'
  }

  predicate AllDigits(s: Bytes) {
    forall k :: 0 <= k < |s| ==> IsDigit(s[k])
  }

  /** Non-empty and all ASCII digits. */
  predicate IsDigits(s: Bytes) {
    s != [] && AllDigits(s)
  }

  method IsASCIIDigits(s: Bytes) returns (ok: bool)
    ensures ok <==> IsDigits(s)
    ensures ok <==> s != [] && forall k :: 0 <= k < |s| ==> '0' <= s[k] <= '9'
  {
    if s == [] {
      return false;
    }
    for i := 0 to |s|
      invariant forall k :: 0 <= k < i ==> IsDigit(s[k])
    {
      if s[i] < '0' || s[i] > '9' {
        return false;
      }
    }
    return true;
  }

  /** The value `strconv.ParseInt` reads from a run of digits, before its range check. */
  function ParseDigits(s: Bytes): (n: int)
    requires AllDigits(s)
    ensures n >= 0
  {
    if s == [] then 0
    else
      assert IsDigit(s[|s| - 1]);
      10 * ParseDigits(s[..|s| - 1]) + (s[|s| - 1] as int - '0' as int)
  }

  lemma {:induction false} ParseInvertsFormat(n: nat)
    ensures ParseDigits(FormatNat(n)) == n
  {
    var s := FormatNat(n);
    if n < 10 {
      assert s[..|s| - 1] == [];
    } else {
      ParseInvertsFormat(n / 10);
      assert s[..|s| - 1] == FormatNat(n / 10);
    }
  }

  function Pow10(n: nat): nat {
    if n == 0 then 1 else 10 * Pow10(n - 1)
  }

  lemma DigitsJoin(a: Bytes, b: Bytes)
    ensures AllDigits(a + b) <==> AllDigits(a) && AllDigits(b)
  {
    assert forall k :: 0 <= k < |a| ==> (a + b)[k] == a[k];
    assert forall k :: 0 <= k < |b| ==> b[k] == (a + b)[|a| + k];
  }

  lemma ParseSnoc(s: Bytes, c: Byte)
    requires AllDigits(s + [c])
    ensures AllDigits(s) && IsDigit(c)
    ensures ParseDigits(s + [c]) == 10 * ParseDigits(s) + (c as int - '0' as int)
  {
    DigitsJoin(s, [c]);
    assert [c][0] == c && (s + [c])[..|s|] == s;
  }

  lemma NextPlace(x: int, place: int, y: int, digit: int)
    ensures 10 * (x * place + y) + digit == x * (10 * place) + (10 * y + digit)
  {
  }

  lemma ParseNothing(a: Bytes)
    requires AllDigits(a)
    ensures AllDigits(a + []) && ParseDigits(a + []) == ParseDigits(a) * Pow10(0) + ParseDigits([])
  {
    assert a + [] == a;
  }

  /** Place value: what is read from two runs of digits end to end, leading zeros included. */
  lemma {:induction false} ParseByPlace(a: Bytes, b: Bytes)
    requires AllDigits(a) && AllDigits(b)
    ensures AllDigits(a + b) && ParseDigits(a + b) == ParseDigits(a) * Pow10(|b|) + ParseDigits(b)
  {
    DigitsJoin(a, b);
    if b == [] {
      ParseNothing(a);
    } else {
      var init, c := b[..|b| - 1], b[|b| - 1];
      assert b == init + [c];
      assert Pow10(|b|) == 10 * Pow10(|init|);
      hide ParseDigits, Pow10, AllDigits, IsDigit;
      Assoc(a, init, [c]);
      ParseSnoc(a + init, c);
      ParseSnoc(init, c);
      ParseByPlace(a, init);
      NextPlace(ParseDigits(a), Pow10(|init|), ParseDigits(init), c as int - '0' as int);
    }
  }

  /** The ten digits. */
  lemma DigitIsRead(n: nat)
    requires n < 10
    ensures FormatNat(n) == ["0123456789"[n]] && ParseDigits(FormatNat(n)) == n
  {
    ParseInvertsFormat(n);
  }

  /** Numbers are written in decimal, the highest place first. */
  lemma FormatByPlace(n: nat, digit: nat)
    requires n > 0 && digit < 10
    ensures FormatNat(10 * n + digit) == FormatNat(n) + FormatNat(digit)
  {
  }

  function RetryLine(d: Int64): Bytes {
    Field(FIELD_RETRY, FormatNat(ClampedMillis(d)))
  }

  function FrameRetry(d: Int64): Bytes {
    RetryLine(d) + [LF] + [LF]
  }

  // --------------------------------------------------------------- field parsing

  /** Where the first colon stands; the length of `s` when there is none. */
  function FirstColon(s: Bytes): (i: nat)
    ensures i <= |s| && COLON !in s[..i]
    ensures i < |s| ==> s[i] == COLON
  {
    if s == [] || s[0] == COLON then 0 else
      assert s[..FirstColon(s[1..]) + 1] == [s[0]] + s[1..][..FirstColon(s[1..])];
      FirstColon(s[1..]) + 1
  }

  function TrimPad(value: Bytes): Bytes {
    if value != [] && value[0] == SPACE then value[1..] else value
  }

  function ParseFieldLine(line: Bytes): (Bytes, Bytes) {
    var i := FirstColon(line);
    if i == |line| then (line, []) else (line[..i], TrimPad(line[i + 1..]))
  }

  /**
   * The parser's reading of a line, by shape: with no colon the whole line is the name;
   * with one, the name is what precedes the first, and one leading space of the rest
   * is optional: without it the rest is the value as it stands.
   */
  lemma FieldLineShapes(name: Bytes, value: Bytes)
    requires COLON !in name
    ensures ParseFieldLine(name) == (name, [])
    ensures ParseFieldLine(name + PAD + value) == (name, value)
    ensures ParseFieldLine(name + [COLON] + value) == (name, TrimPad(value))
    ensures value == [] || value[0] != ' ' ==> ParseFieldLine(name + ":" + value) == (name, value)
  {
    FirstColonAt(name, |name|);
    var padded := name + PAD + value;
    FirstColonAt(padded, |name|);
    assert padded[..|name|] == name && padded[|name| + 1..] == [SPACE] + value;
    var bare := name + [COLON] + value;
    FirstColonAt(bare, |name|);
    assert bare[..|name|] == name && bare[|name| + 1..] == value;
  }

  lemma FirstColonAt(s: Bytes, i: nat)
    requires i <= |s| && forall k :: 0 <= k < i ==> s[k] != COLON
    requires i < |s| ==> s[i] == COLON
    ensures FirstColon(s) == i
  {
  }
}
