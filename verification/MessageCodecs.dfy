/** The two message codecs under the stream adapter, and what a written stream carries through each. */
module MessageCodecs {
  import opened Bytes
  import opened StreamReader
  import Forwarding

  /** mux.Message: only a payload; an empty one says end of stream. */
  datatype MuxMessage = MuxMessage(payload: seq<byte>)

  function MuxSetBytes(b: seq<byte>): MuxMessage {
    MuxMessage(b)
  }

  function MuxCloseMsg(): MuxMessage {
    MuxMessage([])
  }

  function MuxGetBytes(m: MuxMessage): Item {
    if m.payload == [] then Stop(Eof) else Data(m.payload)
  }

  /** What a receiver gets out of messages: the payloads before the first terminator. */
  function Carried(items: seq<Item>): seq<byte> {
    if items == [] || items[0].Stop? then [] else items[0].payload + Carried(items[1..])
  }

  /** One Write per element, then CloseWrite. */
  function MuxStream(writes: seq<seq<byte>>): seq<Item> {
    if writes == [] then [MuxGetBytes(MuxCloseMsg())]
    else [MuxGetBytes(MuxSetBytes(writes[0]))] + MuxStream(writes[1..])
  }

  function ForwardStream(writes: seq<seq<byte>>): seq<Item> {
    if writes == [] then [Forwarding.GetBytes(Forwarding.CloseMsg())]
    else [Forwarding.GetBytes(Forwarding.SetBytes(writes[0]))] + ForwardStream(writes[1..])
  }

  /** Nothing but empty writes follows an empty write. */
  predicate EmptyOnlyAtEnd(writes: seq<seq<byte>>) {
    forall i, j :: 0 <= i < j < |writes| && writes[i] == [] ==> writes[j] == []
  }

  lemma {:induction false} ConcatEmpty(writes: seq<seq<byte>>)
    ensures Concat(writes) == [] <==> forall i :: 0 <= i < |writes| ==> writes[i] == []
  {
    if writes != [] {
      ConcatEmpty(writes[1..]);
      assert forall i :: 0 < i < |writes| ==> writes[i] == writes[1..][i - 1];
    }
  }

  /** The forwarding codec carries every sequence of writes. */
  lemma {:induction false} ForwardCarriesAll(writes: seq<seq<byte>>)
    ensures Carried(ForwardStream(writes)) == Concat(writes)
  {
    if writes != [] {
      ForwardCarriesAll(writes[1..]);
      assert ForwardStream(writes)[1..] == ForwardStream(writes[1..]);
    }
  }

  /** The mux codec carries exactly the sequences of writes with no data after an empty write. */
  lemma {:induction false} MuxCarriesExactly(writes: seq<seq<byte>>)
    ensures Carried(MuxStream(writes)) == Concat(writes) <==> EmptyOnlyAtEnd(writes)
  {
    if writes != [] {
      var rest := writes[1..];
      assert MuxStream(writes)[1..] == MuxStream(rest);
      assert forall i :: 0 < i < |writes| ==> writes[i] == rest[i - 1];
      if writes[0] == [] {
        ConcatEmpty(rest);
        assert Concat(writes) == Concat(rest);
        if EmptyOnlyAtEnd(writes) {
          assert forall i :: 0 <= i < |rest| ==> rest[i] == writes[i + 1];
        }
      } else {
        MuxCarriesExactly(rest);
        SameTail(writes[0], Carried(MuxStream(rest)), Concat(rest));
        assert EmptyOnlyAtEnd(writes) <==> EmptyOnlyAtEnd(rest) by {
          assert forall i :: 0 <= i < |rest| ==> rest[i] == writes[i + 1];
        }
      }
    }
  }

  lemma SameTail<T>(a: seq<T>, b: seq<T>, c: seq<T>)
    ensures a + b == a + c <==> b == c
  {
    if a + b == a + c {
      assert b == (a + b)[|a|..] == (a + c)[|a|..] == c;
    }
  }
}
