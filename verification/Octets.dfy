/** Byte strings, and the little sequence vocabulary the other modules share. */
module Octets {

  /** One octet, written as the character with that code. */
  type Byte = c: char | c < '\U{0100}' witness 'a'

  type Bytes = seq<Byte>

  datatype Option<+T> = None | Some(value: T)

  const LF: Byte := '\n'
  const CR: Byte := '\r'
  const NUL: Byte := '\0'

  /** `strings.Join(parts, "")`; also what a list of reads adds up to. */
  function Concat<T>(parts: seq<seq<T>>): seq<T> {
    if parts == [] then [] else parts[0] + Concat(parts[1..])
  }

  lemma Assoc<T>(a: seq<T>, b: seq<T>, c: seq<T>)
    ensures (a + b) + c == a + (b + c)
  {
  }

  lemma {:induction false} ConcatAppend<T>(a: seq<seq<T>>, b: seq<seq<T>>)
    ensures Concat(a + b) == Concat(a) + Concat(b)
  {
    if a == [] {
      assert a + b == b;
    } else {
      ConcatAppend(a[1..], b);
      assert (a + b)[1..] == a[1..] + b;
      Assoc(a[0], Concat(a[1..]), Concat(b));
    }
  }

  lemma ConcatSnoc<T>(a: seq<seq<T>>, x: seq<T>)
    ensures Concat(a + [x]) == Concat(a) + x
  {
    ConcatAppend(a, [x]);
    assert Concat([x]) == x;
  }

  function Map<A, B>(f: A -> B, s: seq<A>): (r: seq<B>)
    ensures |r| == |s| && forall k :: 0 <= k < |s| ==> r[k] == f(s[k])
  {
    if s == [] then [] else [f(s[0])] + Map(f, s[1..])
  }

  function Min(a: nat, b: nat): nat {
    if a <= b then a else b
  }
}
