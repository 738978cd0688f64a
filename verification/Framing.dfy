/**
 The wire format of the qemu connection: every Write puts a 32-bit little-endian length in front
 of its bytes, and a length of zero says that the writer has finished.
 */
module Framing {
  import opened Bytes

  const LIMIT: nat := 0x1_0000_0000

  /** The k low bytes of n, lowest first. */
  function LE(n: nat, k: nat): (h: seq<byte>)
    ensures |h| == k
    decreases k
  {
    if k == 0 then [] else [n % 0x100] + LE(n / 0x100, k - 1)
  }

  function FromLE(h: seq<byte>): nat {
    if h == [] then 0 else
      var low: int := h[0];
      low + 0x100 * FromLE(h[1..])
  }

  function Pow256(k: nat): (m: nat)
    ensures m > 0
  {
    if k == 0 then 1 else 0x100 * Pow256(k - 1)
  }

  /** binary.Write(wb, binary.LittleEndian, uint32(n)): the cast keeps n modulo 2^32. */
  function LE32(n: nat): (h: seq<byte>)
    ensures |h| == 4
  {
    LE(n, 4)
  }

  /** binary.Read of a uint32. */
  function FromLE32(h: seq<byte>): nat
    requires |h| == 4
  {
    FromLE(h)
  }

  lemma {:induction false} MulGap(d: nat, x: nat, y: nat)
    requires x > y
    ensures d * x >= d * y + d
    decreases x - y
  {
    if x > y + 1 {
      MulGap(d, x - 1, y);
    }
    assert d * x == d * (x - 1) + d;
  }

  lemma DivMod(q: nat, m: nat)
    requires m > 0
    ensures q == m * (q / m) + q % m && q % m < m
  {
  }

  lemma Scale(m: nat, x: nat)
    ensures (0x100 * m) * x == 0x100 * (m * x)
  {
  }

  lemma ModUnique(n: nat, d: nat, a: nat, b: nat)
    requires d > 0 && n == d * a + b && b < d
    ensures n % d == b
  {
    var q := n / d;
    if q > a {
      MulGap(d, q, a);
    } else if q < a {
      MulGap(d, a, q);
    }
  }

  lemma LowByte(n: nat, m: nat)
    requires m > 0
    ensures n % (0x100 * m) == n % 0x100 + 0x100 * (n / 0x100 % m)
  {
    var q := n / 0x100;
    DivMod(q, m);
    Scale(m, q / m);
    ModUnique(n, 0x100 * m, q / m, n % 0x100 + 0x100 * (q % m));
  }

  lemma {:induction false} LERoundTrip(n: nat, k: nat)
    ensures FromLE(LE(n, k)) == n % Pow256(k)
    decreases k
  {
    if k > 0 {
      LERoundTrip(n / 0x100, k - 1);
      assert LE(n, k)[1..] == LE(n / 0x100, k - 1);
      LowByte(n, Pow256(k - 1));
    }
  }

  lemma HeaderValue(n: nat)
    ensures FromLE32(LE32(n)) == n % LIMIT
  {
    LERoundTrip(n, 4);
    assert Pow256(4) == 0x100 * Pow256(3) == 0x1_0000 * Pow256(2) == LIMIT;
  }

  lemma ShortHeader(n: nat)
    requires n < LIMIT
    ensures FromLE32(LE32(n)) == n
  {
    hide FromLE32, LE32;
    HeaderValue(n);
  }

  /** The bytes one Write(payload) puts on the wire; Frame([]) is also what CloseWrite sends. */
  function Frame(payload: seq<byte>): seq<byte> {
    LE32(|payload|) + payload
  }

  lemma FrameLength(payload: seq<byte>)
    ensures |Frame(payload)| == 4 + |payload|
  {
  }

  function Encode(payloads: seq<seq<byte>>): seq<byte> {
    if payloads == [] then [] else Frame(payloads[0]) + Encode(payloads[1..])
  }

  /** A payload that travels as itself: not mistaken for the end of stream and not truncated. */
  predicate Sendable(payload: seq<byte>) {
    0 < |payload| < LIMIT
  }

  lemma {:induction false} EncodePlus(a: seq<seq<byte>>, b: seq<seq<byte>>)
    ensures Encode(a + b) == Encode(a) + Encode(b)
  {
    if a == [] {
      assert a + b == b;
    } else {
      assert (a + b)[1..] == a[1..] + b;
      EncodePlus(a[1..], b);
    }
  }

  lemma EncodeSnoc(a: seq<seq<byte>>, payload: seq<byte>)
    ensures Encode(a + [payload]) == Encode(a) + Frame(payload)
  {
    EncodePlus(a, [payload]);
    assert [payload][1..] == [];
  }

  // ---- what a receiver makes of raw bytes, stated without reference to any writer ----

  /** The byte stream carried by raw bytes w when `left` bytes of the current frame are still due. */
  function Decode(left: nat, w: seq<byte>): seq<byte>
    decreases |w|, 1
  {
    if |w| <= left then w else w[..left] + DecodeFrames(w[left..])
  }

  function DecodeFrames(w: seq<byte>): seq<byte>
    decreases |w|, 0
  {
    if |w| < 4 || FromLE32(w[..4]) == 0 then [] else Decode(FromLE32(w[..4]), w[4..])
  }

  /** The raw bytes hold whole frames up to a close frame. */
  predicate Ends(left: nat, w: seq<byte>)
    decreases |w|, 1
  {
    left <= |w| && EndsFrames(w[left..])
  }

  predicate EndsFrames(w: seq<byte>)
    decreases |w|, 0
  {
    |w| >= 4 && (FromLE32(w[..4]) == 0 || Ends(FromLE32(w[..4]), w[4..]))
  }

  lemma EndsHeader(h: seq<byte>, body: seq<byte>)
    requires |h| == 4
    ensures EndsFrames(h + body) <==> FromLE32(h) == 0 || Ends(FromLE32(h), body)
  {
    var w := h + body;
    assert w[..4] == h && w[4..] == body;
  }

  lemma FrameEnds(payload: seq<byte>, more: seq<byte>)
    requires |payload| < LIMIT
    ensures EndsFrames(Frame(payload) + more) <==> payload == [] || EndsFrames(more)
  {
    hide FromLE32, LE32, EndsFrames;
    ShortHeader(|payload|);
    EndsHeader(LE32(|payload|), payload + more);
    assert (payload + more)[|payload|..] == more;
    Assoc(LE32(|payload|), payload, more);
  }

  lemma {:induction false} EncodeEnds(payloads: seq<seq<byte>>)
    requires forall p :: p in payloads ==> Sendable(p)
    ensures EndsFrames(Encode(payloads) + Frame([]))
  {
    hide EndsFrames, Frame;
    if payloads == [] {
      FrameEnds([], []);
      assert Encode(payloads) + Frame([]) == Frame([]) + [];
    } else {
      var more := Encode(payloads[1..]);
      EncodeEnds(payloads[1..]);
      assert Sendable(payloads[0]);
      FrameEnds(payloads[0], more + Frame([]));
      Assoc(Frame(payloads[0]), more, Frame([]));
    }
  }

  lemma DecodeHeader(h: seq<byte>, body: seq<byte>)
    requires |h| == 4
    ensures DecodeFrames(h + body) == if FromLE32(h) == 0 then [] else Decode(FromLE32(h), body)
  {
    var w := h + body;
    assert w[..4] == h && w[4..] == body;
  }

  lemma DecodeBody(payload: seq<byte>, rest: seq<byte>)
    ensures Decode(|payload|, payload + rest) == payload + DecodeFrames(rest)
  {
    var w := payload + rest;
    if rest == [] {
      assert w == payload;
      assert payload + [] == payload;
    } else {
      assert w[..|payload|] == payload && w[|payload|..] == rest;
    }
  }

  lemma CloseFrameEmpty()
    ensures DecodeFrames(Frame([])) == []
  {
    HeaderValue(0);
    DecodeHeader(LE32(0), []);
    assert LE32(0) + [] == Frame([]);
  }

  /** A front of the raw bytes carries a front of the byte stream. */
  lemma {:induction false} DecodePrefix(left: nat, w: seq<byte>, k: nat)
    requires k <= |w|
    ensures Decode(left, w[..k]) <= Decode(left, w)
    decreases |w|, 1
  {
    hide FromLE32;
    if |w| <= left {
    } else if k <= left {
      assert w[..k] == w[..left][..k];
    } else {
      assert w[..k][..left] == w[..left] && w[..k][left..] == w[left..][..k - left];
      FramesPrefix(w[left..], k - left);
    }
  }

  lemma {:induction false} FramesPrefix(w: seq<byte>, k: nat)
    requires k <= |w|
    ensures DecodeFrames(w[..k]) <= DecodeFrames(w)
    decreases |w|, 0
  {
    hide FromLE32;
    if k >= 4 {
      assert w[..k][..4] == w[..4] && w[..k][4..] == w[4..][..k - 4];
      DecodePrefix(FromLE32(w[..4]), w[4..], k - 4);
    }
  }

  lemma DecodeFrame(payload: seq<byte>, rest: seq<byte>)
    requires Sendable(payload)
    ensures DecodeFrames(Frame(payload) + rest) == payload + DecodeFrames(rest)
  {
    hide FromLE32, LE32, Decode, DecodeFrames;
    ShortHeader(|payload|);
    DecodeHeader(LE32(|payload|), payload + rest);
    DecodeBody(payload, rest);
    Assoc(LE32(|payload|), payload, rest);
  }

  /** Round trip: the receiver's reading of any sequence of sendable writes is their bytes. */
  lemma {:induction false} DecodeEncode(payloads: seq<seq<byte>>, rest: seq<byte>)
    requires forall p :: p in payloads ==> Sendable(p)
    ensures DecodeFrames(Encode(payloads) + rest) == Concat(payloads) + DecodeFrames(rest)
  {
    hide Frame, DecodeFrames;
    if payloads == [] {
      assert Encode(payloads) + rest == rest;
    } else {
      var p, more := payloads[0], Encode(payloads[1..]);
      assert Sendable(p);
      Assoc(Frame(p), more, rest);
      DecodeFrame(p, more + rest);
      DecodeEncode(payloads[1..], rest);
      Assoc(p, Concat(payloads[1..]), DecodeFrames(rest));
    }
  }

  /**
   The condition on Write, both ways: the frame of a payload is read back as that payload in front
   of whatever follows exactly when the payload is sendable. An empty payload ends the stream for
   the receiver; one of 2^32 bytes or more announces a truncated length.
   */
  lemma SendableExactly(payload: seq<byte>)
    ensures Sendable(payload) <==>
              forall rest: seq<byte> :: DecodeFrames(Frame(payload) + rest) == payload + DecodeFrames(rest)
  {
    if Sendable(payload) {
      forall rest: seq<byte>
        ensures DecodeFrames(Frame(payload) + rest) == payload + DecodeFrames(rest)
      {
        DecodeFrame(payload, rest);
      }
    } else {
      UnsendableMisread(payload);
    }
  }

  lemma UnsendableMisread(payload: seq<byte>)
    requires !Sendable(payload)
    ensures exists rest: seq<byte> :: DecodeFrames(Frame(payload) + rest) != payload + DecodeFrames(rest)
  {
    HeaderValue(|payload|);
    if payload == [] {
      var rest := Frame([1]);
      DecodeFrame([1], []);
      assert rest + [] == rest;
      DecodeHeader(LE32(0), rest);
      assert Frame(payload) == LE32(0);
      assert DecodeFrames(Frame(payload) + rest) != payload + DecodeFrames(rest);
    } else {
      var n := |payload| % LIMIT;
      var rest: seq<byte> := [];
      DecodeHeader(LE32(|payload|), payload);
      assert Frame(payload) + rest == LE32(|payload|) + payload;
      DecodeShrinks(payload[n..]);
      assert DecodeFrames(Frame(payload) + rest) != payload + DecodeFrames(rest);
    }
  }

  /** Reading frames costs at least a header. */
  lemma {:induction false} DecodeShrinks(w: seq<byte>)
    ensures |DecodeFrames(w)| <= |w|
    ensures w != [] ==> |DecodeFrames(w)| < |w|
    decreases |w|
  {
    if |w| >= 4 && FromLE32(w[..4]) < |w[4..]| {
      DecodeShrinks(w[4..][FromLE32(w[..4])..]);
    }
  }
}
