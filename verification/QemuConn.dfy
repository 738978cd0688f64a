/** The methods of the qemu Conn, as one goroutine at a time runs them. */
module QemuConn {
  import opened Bytes
  import opened Framing

  datatype Error = NoError | Eof | UnexpectedEof | InputOutput | Broken | Closed

  /** How a transport ends for its reader: in order, with the device's "input/output error", or with
      another error. */
  datatype Ending = InOrder | DeviceGone | Failure

  /** What io.ReadFull returns when the transport ended after `got` bytes. */
  function Shortfall(ending: Ending, got: nat): (err: Error)
    ensures err != NoError && err != Closed
  {
    match ending
    case InOrder => if got == 0 then Eof else UnexpectedEof
    case DeviceGone => InputOutput
    case Failure => Broken
  }

  class Conn {
    var left: nat
    var closedReads: bool
    var closedWrites: bool
    var closed: bool

    /** The transport: bytes it will still yield and what comes after them, bytes it has been given, how
        many more it takes before it fails, and whether the buffered writer has seen it fail. */
    var inbox: seq<byte>
    var ending: Ending
    var outbox: seq<byte>
    var room: nat
    var broken: bool
    var transportClosed: bool

    predicate Valid()
      reads this
    {
      transportClosed ==> closedReads && closedWrites
    }

    /** The byte stream this connection will still deliver. */
    function Stream(): seq<byte>
      reads this
    {
      Decode(left, inbox)
    }

    constructor (arriving: seq<byte>, end: Ending, takes: nat)
      ensures Valid() && left == 0 && inbox == arriving && ending == end && outbox == [] && room == takes && !broken
      ensures !closedReads && !closedWrites && !closed && !transportClosed
    {
      left := 0;
      closedReads, closedWrites, closed, transportClosed := false, false, false, false;
      inbox, ending, outbox, room, broken := arriving, end, [], takes, false;
    }

    /** io.ReadFull on a transport that hands over fragments of any size. */
    method ReadFull(b: array<byte>, n: nat) returns (got: nat, err: Error)
      requires n <= b.Length
      modifies this`inbox, b
      ensures got == Min(n, |old(inbox)|)
      ensures b[..got] == old(inbox)[..got] && b[got..] == old(b[got..])
      ensures inbox == old(inbox)[got..]
      ensures err == if got == n then NoError else Shortfall(ending, got)
    {
      got := 0;
      while got < n && inbox != []
        invariant got <= Min(n, |old(inbox)|)
        invariant inbox == old(inbox)[got..]
        invariant forall i :: 0 <= i < got ==> b[i] == old(inbox)[i]
        invariant forall i :: got <= i < b.Length ==> b[i] == old(b[i])
        decreases n - got
      {
        var k :| 1 <= k <= n - got && k <= |inbox|;
        forall i | 0 <= i < k {
          b[got + i] := inbox[i];
        }
        assert forall i :: 0 <= i < k ==> inbox[i] == old(inbox)[got + i];
        inbox := inbox[k..];
        got := got + k;
      }
      err := if got == n then NoError else Shortfall(ending, got);
    }

    /** Conn.read: leftovers of the current frame first, else the next header and the frame's front. */
    method ReadUnmapped(b: array<byte>) returns (n: nat, err: Error)
      requires Valid()
      modifies this`left, this`inbox, b
      ensures Valid() && n <= b.Length
      ensures closedReads ==> n == 0 && err == Closed && left == old(left) && inbox == old(inbox)
      ensures !closedReads ==> err != Closed
      ensures !closedReads && (b.Length > 0 || old(left) == 0) ==>
                && (err == NoError ==> old(Stream()) == b[..n] + Stream())
                && (err != NoError ==> old(Stream()) == b[..n])
      ensures !closedReads && (b.Length > 0 || old(left) == 0) && old(Ends(left, inbox)) ==>
                err == Eof || (err == NoError && Ends(left, inbox))
      ensures err == Eof ==> n == 0
      ensures err == InputOutput ==> ending == DeviceGone
      ensures err in {NoError, Closed, Eof, Shortfall(ending, n), Shortfall(ending, 1)}
      ensures !closedReads && (b.Length > 0 || old(left) == 0) && !old(Ends(left, inbox)) && err != NoError ==>
                err == Shortfall(ending, n) || err == Shortfall(ending, 1)
      ensures err == NoError && b.Length > 0 ==> n > 0 && |inbox| < old(|inbox|)
      ensures err == NoError ==> n == b.Length || left == 0
      ensures err != NoError ==> left == old(left)
    {
      hide Decode, DecodeFrames, Ends, FromLE32;
      if closedReads {
        return 0, Closed;
      }
      var toRead := Min(left, b.Length);
      NoMore(left);
      if toRead > 0 {
        LeftoverRead(left, inbox, toRead);
        n, err := ReadFull(b, toRead);
        if err != NoError {
          return;
        }
        left := left - n;
        return;
      }
      HeaderRead(inbox);
      var header := new byte[4];
      n, err := ReadFull(header, 4);
      if err != NoError {
        return 0, err;
      }
      assert header[..4] == header[..];
      var recd := FromLE32(header[..]);
      if recd == 0 {
        return 0, Eof;
      }
      toRead := Min(recd, b.Length);
      LeftoverRead(recd, inbox, toRead);
      n, err := ReadFull(b, toRead);
      if err != NoError {
        return;
      }
      left := recd - toRead;
    }

    /**
     A Read hands over the front of the stream: without an error, what it returns and what remains
     is the stream before; with an error, what it returns is all there was. The device's error is
     reported as end of file, possibly together with bytes.
     */
    method Read(b: array<byte>) returns (n: nat, err: Error)
      requires Valid()
      modifies this`left, this`inbox, b
      ensures Valid() && n <= b.Length
      ensures closedReads ==> n == 0 && err == Closed && left == old(left) && inbox == old(inbox)
      ensures !closedReads ==> err != Closed
      ensures !closedReads && (b.Length > 0 || old(left) == 0) ==>
                && (err == NoError ==> old(Stream()) == b[..n] + Stream())
                && (err != NoError ==> old(Stream()) == b[..n])
      ensures !closedReads && (b.Length > 0 || old(left) == 0) && old(Ends(left, inbox)) ==>
                err == Eof || (err == NoError && Ends(left, inbox))
      ensures err != InputOutput && (err == Eof && ending != DeviceGone ==> n == 0)
      ensures ending == DeviceGone && !closedReads ==> err == NoError || err == Eof
      ensures ending == InOrder && !closedReads ==> err == NoError || err == Eof || err == UnexpectedEof
      ensures ending == Failure && !closedReads ==> err == NoError || err == Eof || err == Broken
      ensures ending == Failure && !closedReads && (b.Length > 0 || old(left) == 0) && !old(Ends(left, inbox)) ==>
                err == NoError || err == Broken
      ensures err == NoError && b.Length > 0 ==> n > 0 && |inbox| < old(|inbox|)
      ensures err == NoError ==> n == b.Length || left == 0
      ensures err != NoError ==> left == old(left)
    {
      hide Decode, Ends;
      n, err := ReadUnmapped(b);
      if err == InputOutput {
        err := Eof;
      }
    }

    /** Reading until an error comes back yields the whole stream, for every buffer size, and the
        error is the end of file when the stream ends in a close frame. */
    method ReadAll(size: nat) returns (data: seq<byte>, err: Error)
      requires Valid() && !closedReads && size > 0
      modifies this`left, this`inbox
      ensures Valid() && data == old(Stream()) && err != NoError && err != Closed && err != InputOutput
      ensures old(Ends(left, inbox)) ==> err == Eof
    {
      hide Decode, Ends;
      data, err := [], NoError;
      var b := new byte[size];
      while err == NoError
        invariant Valid() && !closedReads && err != Closed && err != InputOutput && fresh(b)
        invariant old(Stream()) == if err == NoError then data + Stream() else data
        invariant old(Ends(left, inbox)) ==> err == Eof || (err == NoError && Ends(left, inbox))
        decreases if err == NoError then 1 else 0, |inbox|
      {
        ghost var sofar := data;
        var n;
        n, err := Read(b);
        data := data + b[..n];
        Assoc(sofar, b[..n], Stream());
      }
    }

    /** A frame goes through the buffered writer and its Flush; once that has failed it stays failed. */
    method Put(frame: seq<byte>) returns (ok: bool)
      modifies this`outbox, this`room, this`broken
      ensures ok <==> !old(broken) && |frame| <= old(room)
      ensures outbox == old(outbox) + if old(broken) then [] else frame[..Min(|frame|, old(room))]
      ensures room == if old(broken) then old(room) else old(room) - Min(|frame|, old(room))
      ensures broken <==> !ok
    {
      if broken {
        return false;
      }
      var k := Min(|frame|, room);
      outbox, room := outbox + frame[..k], room - k;
      broken := k < |frame|;
      return !broken;
    }

    /** One whole frame goes out, or as much of it as the failing transport takes, or nothing. */
    method Write(b: seq<byte>) returns (n: nat, err: Error)
      requires Valid()
      modifies this`outbox, this`room, this`broken
      ensures Valid() && n <= |b|
      ensures closedWrites ==>
                n == 0 && err == Closed && outbox == old(outbox) && room == old(room) && broken == old(broken)
      ensures !closedWrites ==>
                && err == (if !old(broken) && |Frame(b)| <= old(room) then NoError else Broken)
                && outbox == old(outbox) + (if old(broken) then [] else Frame(b)[..Min(|Frame(b)|, old(room))])
                && (err == NoError ==>
                      n == |b| && outbox == old(outbox) + Frame(b) && room == old(room) - |Frame(b)| && !broken)
                && (err != NoError ==> broken)
    {
      if closedWrites {
        return 0, Closed;
      }
      var ok := Put(LE32(|b|) + b);
      if !ok {
        n :| 0 <= n <= |b|;     // how much of b the buffer had taken
        return n, Broken;
      }
      assert Frame(b)[..|Frame(b)|] == Frame(b);
      return |b|, NoError;
    }

    method CloseRead() returns (err: Error)
      requires Valid()
      modifies this`closedReads
      ensures Valid() && closedReads
      ensures err == if old(closedReads) then Closed else NoError
    {
      if closedReads {
        return Closed;
      }
      closedReads := true;
      return NoError;
    }

    /** The close frame goes out once, as far as the transport takes it; the half is marked closed even
        when it does not. */
    method CloseWrite() returns (err: Error)
      requires Valid()
      modifies this`closedWrites, this`outbox, this`room, this`broken
      ensures Valid() && closedWrites
      ensures old(closedWrites) ==>
                err == Closed && outbox == old(outbox) && room == old(room) && broken == old(broken)
      ensures !old(closedWrites) ==>
                && err == (if !old(broken) && 4 <= old(room) then NoError else Broken)
                && outbox == old(outbox) + (if old(broken) then [] else Frame([])[..Min(4, old(room))])
    {
      if closedWrites {
        return Closed;
      }
      closedWrites := true;
      assert Frame([]) == LE32(0);
      var ok := Put(LE32(0));
      return if ok then NoError else Broken;
    }

    method Close() returns (err: Error)
      requires Valid()
      modifies this`closed, this`closedReads, this`closedWrites, this`transportClosed
      modifies this`outbox, this`room, this`broken
      ensures Valid() && closed
      ensures old(closed) ==>
                err == Closed && unchanged(this)
      ensures !old(closed) ==>
                && err == NoError && closedReads && closedWrites && transportClosed
                && outbox == old(outbox) + if old(closedWrites || broken) then [] else Frame([])[..Min(4, old(room))]
    {
      if closed {
        return Closed;
      }
      closed := true;
      var _ := CloseWrite();
      var _ := CloseRead();
      transportClosed := true;
      return NoError;
    }

    /** Writing chunks up to the first error and then half-closing, as a copy does: what goes out is
        the front of the frames and the close frame that the transport takes. */
    method SendAll(chunks: seq<seq<byte>>)
      requires Valid() && !closedWrites && !broken
      modifies this`outbox, this`room, this`broken, this`closedWrites
      ensures Valid() && closedWrites
      ensures var all := Encode(chunks) + Frame([]); outbox == old(outbox) + all[..Min(|all|, old(room))]
    {
      hide Encode, Frame;
      var i := 0;
      NoFrames(chunks);
      assert outbox == outbox + [];
      while i < |chunks| && !broken
        invariant i <= |chunks| && Valid() && !closedWrites
        invariant !broken ==>
                    && outbox == old(outbox) + Encode(chunks[..i])
                    && room + |Encode(chunks[..i])| == old(room)
        invariant broken ==> CutOff(old(outbox), outbox, chunks, old(room))
      {
        FrameCut(old(outbox), chunks, i, old(room));
        var _, _ := Write(chunks[i]);
        i := i + 1;
      }
      if !broken {
        assert chunks[..|chunks|] == chunks;
        CloseCut(old(outbox), chunks, old(room));
        FrameLength([]);
      }
      var _ := CloseWrite();
    }
  }

  /** What a transport that takes `room` bytes has after all the frames and the close frame. */
  ghost predicate CutOff(before: seq<byte>, after: seq<byte>, chunks: seq<seq<byte>>, room: nat) {
    var all := Encode(chunks) + Frame([]);
    room < |all| && after == before + all[..room]
  }

  lemma NoFrames(chunks: seq<seq<byte>>)
    ensures Encode(chunks[..0]) == []
  {
  }

  /** The transport fails inside frame i, or takes it. */
  lemma FrameCut(before: seq<byte>, chunks: seq<seq<byte>>, i: nat, room: nat)
    requires i < |chunks| && |Encode(chunks[..i])| <= room
    ensures Encode(chunks[..i + 1]) == Encode(chunks[..i]) + Frame(chunks[i])
    ensures var e, f := Encode(chunks[..i]), Frame(chunks[i]);
            && (before + e) + f == before + Encode(chunks[..i + 1])
            && (|e| + |f| > room ==> CutOff(before, (before + e) + f[..Min(|f|, room - |e|)], chunks, room))
  {
    hide Encode, Frame;
    var e, f := Encode(chunks[..i]), Frame(chunks[i]);
    assert chunks[..i + 1] == chunks[..i] + [chunks[i]];
    EncodeSnoc(chunks[..i], chunks[i]);
    assert chunks == chunks[..i + 1] + chunks[i + 1..];
    EncodePlus(chunks[..i + 1], chunks[i + 1..]);
    if |e| + |f| > room {
      ListCut(before, e, f, Encode(chunks[i + 1..]), Frame([]), room);
    }
  }

  lemma ListCut<T>(before: seq<T>, e: seq<T>, f: seq<T>, g: seq<T>, z: seq<T>, room: nat)
    requires |e| <= room < |e| + |f|
    ensures var all := ((e + f) + g) + z;
            room < |all| && (before + e) + f[..room - |e|] == before + all[..room]
  {
    var all := ((e + f) + g) + z;
    assert all[..room] == e + f[..room - |e|];
    Assoc(before, e, f[..room - |e|]);
  }

  /** ... and then the close frame. */
  lemma CloseCut(before: seq<byte>, chunks: seq<seq<byte>>, room: nat)
    requires |Encode(chunks)| <= room
    ensures var e, z := Encode(chunks), Frame([]);
            var all := e + z;
            (before + e) + z[..Min(|z|, room - |e|)] == before + all[..Min(|all|, room)]
  {
    hide Encode, Frame;
    var e, z := Encode(chunks), Frame([]);
    var k := Min(|z|, room - |e|);
    assert (e + z)[..|e| + k] == e + z[..k];
    Assoc(before, e, z[..k]);
  }

  lemma NoMore(left: nat)
    ensures Decode(left, []) == []
  {
  }

  /** Between frames, the stream starts with a header. */
  lemma HeaderRead(w: seq<byte>)
    ensures |w| < 4 ==> Decode(0, w) == []
    ensures |w| >= 4 ==>
              Decode(0, w) == if FromLE32(w[..4]) == 0 then [] else Decode(FromLE32(w[..4]), w[4..])
    ensures Ends(0, w) <==> |w| >= 4 && (FromLE32(w[..4]) == 0 || Ends(FromLE32(w[..4]), w[4..]))
  {
    assert w[..0] == [] && w[0..] == w;
  }

  /** Taking k bytes of a frame off its front. */
  lemma LeftoverRead(left: nat, w: seq<byte>, k: nat)
    requires k <= left
    ensures |w| < k ==> Decode(left, w) == w
    ensures |w| >= k ==> Decode(left, w) == w[..k] + Decode(left - k, w[k..])
    ensures Ends(left, w) <==> |w| >= k && Ends(left - k, w[k..])
  {
    if k <= |w| && left <= |w| {
      assert w[k..][left - k..] == w[left..];
    }
    if k <= |w| <= left {
      assert w == w[..k] + w[k..];
    } else if left < |w| {
      assert w[..left] == w[..k] + w[k..][..left - k];
      Assoc(w[..k], w[k..][..left - k], DecodeFrames(w[left..]));
    }
  }

  /**
   End to end through the code: whatever chunks are sent, whatever the reader's buffer size, the
   transport's fragmentation and the moment it fails, the reader collects a front of the bytes sent;
   when the transport takes everything, it collects exactly those bytes and then an end of file.
   */
  method Transfer(chunks: seq<seq<byte>>, size: nat, room: nat, end: Ending) returns (data: seq<byte>, err: Error)
    requires size > 0 && forall c :: c in chunks ==> Sendable(c)
    ensures data <= Concat(chunks) && err != NoError
    ensures |Encode(chunks) + Frame([])| <= room ==> data == Concat(chunks) && err == Eof
  {
    hide Frame, Encode, Decode, DecodeFrames, Ends, EndsFrames, Concat;
    ghost var all := Encode(chunks) + Frame([]);
    var writer := new Conn([], InOrder, room);
    writer.SendAll(chunks);
    var reader := new Conn(writer.outbox, end, 0);
    ghost var k := Min(|all|, room);
    assert writer.outbox == [] + all[..k] == all[..k];
    WholeStream(chunks);
    DecodePrefix(0, all, k);
    assert k == |all| ==> all[..k] == all;
    data, err := reader.ReadAll(size);
  }

  lemma WholeStream(chunks: seq<seq<byte>>)
    requires forall c :: c in chunks ==> Sendable(c)
    ensures var all := Encode(chunks) + Frame([]); Decode(0, all) == Concat(chunks) && Ends(0, all)
  {
    hide Frame, Encode, DecodeFrames, EndsFrames, Concat;
    var all := Encode(chunks) + Frame([]);
    DecodeEncode(chunks, Frame([]));
    EncodeEnds(chunks);
    CloseFrameEmpty();
    assert all[0..] == all && all[..0] == [];
    FrameLength([]);
    assert Concat(chunks) + [] == Concat(chunks);
    assert [] + DecodeFrames(all) == DecodeFrames(all);
  }
}
