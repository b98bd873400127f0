/**
 * One encoding of protocol events as SSE events that meets `EndToEnd.FaithfulCodec`: every
 * event becomes a list of numbers, and those are written in unary. It stands where the
 * program has JSON, to show that what is asked of an encoding can be met.
 */
module SampleEncoding {
  import opened Octets
  import opened Protocol
  import Codec
  import EndToEnd

  /** An event as a tag, one integer and two texts. */
  datatype Fields = Fields(tag: nat, n: int, a: string, b: string)

  function ToFields(e: Event): Fields {
    match e
    case MessageStart(id) => Fields(0, 0, id, "")
    case Ping => Fields(1, 0, "", "")
    case MessageDelta(reason, tokens) => Fields(2, tokens, reason, "")
    case MessageStop => Fields(3, 0, "", "")
    case Undecodable => Fields(4, 0, "", "")
    case BlockStop(i) => Fields(5, i, "", "")
    case BlockStart(i, TextBlock) => Fields(6, i, "", "")
    case BlockStart(i, ThinkingBlock) => Fields(7, i, "", "")
    case BlockStart(i, ToolUseBlock(id, name)) => Fields(8, i, id, name)
    case BlockStart(i, ToolResultBlock(id, isError)) => Fields(if isError then 10 else 9, i, id, "")
    case BlockStart(i, UnknownBlock) => Fields(11, i, "", "")
    case BlockDelta(i, TextDelta(text)) => Fields(12, i, text, "")
    case BlockDelta(i, ThinkingDelta(text)) => Fields(13, i, text, "")
    case BlockDelta(i, InputDelta(json)) => Fields(14, i, json, "")
    case BlockDelta(i, ResultDelta(text)) => Fields(15, i, text, "")
    case BlockDelta(i, UnknownDelta) => Fields(16, i, "", "")
  }

  function FromFields(f: Fields): Event {
    match f.tag
    case 0 => MessageStart(f.a)
    case 1 => Ping
    case 2 => MessageDelta(f.a, f.n)
    case 3 => MessageStop
    case 5 => BlockStop(f.n)
    case 6 => BlockStart(f.n, TextBlock)
    case 7 => BlockStart(f.n, ThinkingBlock)
    case 8 => BlockStart(f.n, ToolUseBlock(f.a, f.b))
    case 9 => BlockStart(f.n, ToolResultBlock(f.a, false))
    case 10 => BlockStart(f.n, ToolResultBlock(f.a, true))
    case 11 => BlockStart(f.n, UnknownBlock)
    case 12 => BlockDelta(f.n, TextDelta(f.a))
    case 13 => BlockDelta(f.n, ThinkingDelta(f.a))
    case 14 => BlockDelta(f.n, InputDelta(f.a))
    case 15 => BlockDelta(f.n, ResultDelta(f.a))
    case 16 => BlockDelta(f.n, UnknownDelta)
    case _ => Undecodable
  }

  lemma FieldsBack(e: Event)
    ensures FromFields(ToFields(e)) == e
  {
  }

  // -------------------------------------------------------------- texts as numbers

  function Codes(s: string): seq<nat> {
    seq(|s|, k requires 0 <= k < |s| => s[k] as nat)
  }

  function ToChar(n: nat): char {
    if n < 0xD800 || 0xE000 <= n < 0x11_0000 then n as char else '?'
  }

  function Chars(ns: seq<nat>): string {
    seq(|ns|, k requires 0 <= k < |ns| => ToChar(ns[k]))
  }

  lemma CharsBack(s: string)
    ensures Chars(Codes(s)) == s
  {
    forall k | 0 <= k < |s| ensures Chars(Codes(s))[k] == s[k] {
    }
  }

  function Numbers(f: Fields): seq<nat> {
    [f.tag, if f.n < 0 then 1 else 0, if f.n < 0 then -f.n else f.n, |f.a|] + Codes(f.a) + Codes(f.b)
  }

  function FromNumbers(ns: seq<nat>): Fields {
    if |ns| < 4 || |ns| < 4 + ns[3] then Fields(4, 0, "", "")
    else
      var n: int := ns[2];
      Fields(ns[0], if ns[1] == 1 then -n else n, Chars(ns[4..4 + ns[3]]), Chars(ns[4 + ns[3]..]))
  }

  lemma NumbersBack(f: Fields)
    ensures FromNumbers(Numbers(f)) == f
  {
    hide Codes, Chars;
    CharsBack(f.a);
    CharsBack(f.b);
    SameSize(f.a);
    var ns := Numbers(f);
    assert ns[4..4 + |f.a|] == Codes(f.a) && ns[4 + |f.a|..] == Codes(f.b);
  }

  lemma SameSize(s: string)
    ensures |Codes(s)| == |s|
  {
  }

  // ------------------------------------------------------------- numbers as octets

  function Ones(n: nat): Bytes {
    if n == 0 then [] else ['1'] + Ones(n - 1)
  }

  function Unary(ns: seq<nat>): Bytes {
    if ns == [] then [] else Ones(ns[0]) + ['0'] + Unary(ns[1..])
  }

  /** Reading unary numbers, with `n` already read of the first. */
  function FromUnary(s: Bytes, n: nat): seq<nat> {
    if s == [] then []
    else if s[0] == '1' then FromUnary(s[1..], n + 1)
    else [n] + FromUnary(s[1..], 0)
  }

  lemma {:induction false} OnesBack(k: nat, rest: Bytes, n: nat)
    ensures FromUnary(Ones(k) + ['0'] + rest, n) == [n + k] + FromUnary(rest, 0)
  {
    var s := Ones(k) + ['0'] + rest;
    if k == 0 {
      assert s == ['0'] + rest && s[1..] == rest;
    } else {
      assert s[0] == '1' && s[1..] == Ones(k - 1) + ['0'] + rest;
      OnesBack(k - 1, rest, n + 1);
    }
  }

  lemma {:induction false} UnaryBack(ns: seq<nat>)
    ensures FromUnary(Unary(ns), 0) == ns
  {
    if ns != [] {
      OnesBack(ns[0], Unary(ns[1..]), 0);
      UnaryBack(ns[1..]);
    }
  }

  lemma {:induction false} OnesOnly(n: nat)
    ensures CR !in Ones(n)
  {
    if n > 0 {
      OnesOnly(n - 1);
    }
  }

  lemma {:induction false} NoCarriageReturn(ns: seq<nat>)
    ensures CR !in Unary(ns)
  {
    if ns != [] {
      OnesOnly(ns[0]);
      NoCarriageReturn(ns[1..]);
    }
  }

  // ------------------------------------------------------------------ the encoding

  function Encode(e: Event): Codec.Event {
    Codec.Event([], [], Unary(Numbers(ToFields(e))))
  }

  function Decode(e: Codec.Event): Event {
    FromFields(FromNumbers(FromUnary(e.data, 0)))
  }

  /** Some encoding loses nothing, sets no id, has clean event names and no raw CR. */
  lemma FaithfulCodecExists()
    ensures EndToEnd.FaithfulCodec(Encode, Decode)
  {
    hide ToFields, FromFields, Numbers, FromNumbers, Unary, FromUnary;
    forall e: Event
      ensures Decode(Encode(e)) == e && CR !in Encode(e).data
    {
      UnaryBack(Numbers(ToFields(e)));
      NumbersBack(ToFields(e));
      FieldsBack(e);
      NoCarriageReturn(Numbers(ToFields(e)));
    }
  }
}
