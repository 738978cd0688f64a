/** Byte strings and the list facts that every stream argument below rests on. */
module Bytes {

  type byte = x: int | 0 <= x < 256

  datatype Option<+T> = None | Some(value: T)

  function Min(a: nat, b: nat): nat {
    if a <= b then a else b
  }

  /** All chunks of a stream, glued together in order. */
  function Concat<T>(chunks: seq<seq<T>>): seq<T> {
    if chunks == [] then [] else chunks[0] + Concat(chunks[1..])
  }

  lemma {:induction false} ConcatPlus<T>(a: seq<seq<T>>, b: seq<seq<T>>)
    ensures Concat(a + b) == Concat(a) + Concat(b)
  {
    if a == [] {
      assert a + b == b;
    } else {
      assert (a + b)[1..] == a[1..] + b;
      ConcatPlus(a[1..], b);
    }
  }

  lemma ConcatOne<T>(chunk: seq<T>)
    ensures Concat([chunk]) == chunk
  {
    assert [chunk][1..] == [];
  }

  lemma ConcatSnoc<T>(a: seq<seq<T>>, chunk: seq<T>)
    ensures Concat(a + [chunk]) == Concat(a) + chunk
  {
    ConcatPlus(a, [chunk]);
    ConcatOne(chunk);
  }

  /** Dropping the first chunk drops its bytes. */
  lemma ConcatFrom<T>(a: seq<seq<T>>, i: nat)
    requires i < |a|
    ensures Concat(a[i..]) == a[i] + Concat(a[i + 1..])
  {
    assert a[i..][1..] == a[i + 1..];
  }

  // ---- plain list algebra, stated on names so that the solver never unfolds a stream ----

  lemma Assoc<T>(a: seq<T>, b: seq<T>, c: seq<T>)
    ensures (a + b) + c == a + (b + c)
  {
  }

  /** Moving the front of one list to the back of its neighbour leaves the concatenation alone. */
  lemma Shift<T>(a: seq<T>, b: seq<T>, k: nat)
    requires k <= |b|
    ensures (a + b[..k]) + b[k..] == a + b
  {
  }
}
