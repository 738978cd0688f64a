/** What every schedule of the qemu link keeps, and the theorems about all runs. */
module QemuLinkProof {
  import opened Bytes
  import opened Framing
  import opened QemuLink

  // ---- the invariant of one direction ----

  function Greet(said: bool): seq<byte> {
    if said then RDY else []
  }

  /** Payload bytes of the frame in progress that the receiver has not copied yet. */
  function Due(p: Pipe): nat {
    match p.reading
    case Greeting(_) => 0
    case Idle => p.left
    case Header(_, _) => 0
    case Body(need, after) => need + after
  }

  /** Bytes taken off the transport but not interpreted yet. */
  function InHand(p: Pipe): seq<byte> {
    match p.reading
    case Greeting(got) => got
    case Header(_, got) => got
    case _ => []
  }

  /** Everything the receiver has not interpreted yet, wherever it is. */
  function Ahead(p: Pipe): seq<byte> {
    InHand(p) + (p.chan + p.lost + p.pend)
  }

  predicate Sized(payloads: seq<seq<byte>>) {
    forall i :: 0 <= i < |payloads| ==> |payloads[i]| < LIMIT
  }

  /** `due` bytes of `ahead` finish the current frame, the frames `tail` follow, and with the bytes
      delivered they make up the whole stream. */
  predicate Fits(ahead: seq<byte>, due: nat, tail: seq<seq<byte>>, delivered: seq<byte>, all: seq<byte>) {
    && due <= |ahead|
    && ahead[due..] == Encode(tail)
    && delivered + ahead[..due] + Concat(tail) == all
  }

  /** The receiver is where the sender's frames say: nothing skipped, nothing read twice. */
  predicate Aligned(p: Pipe) {
    p.taken <= |p.begun| && Fits(Ahead(p), Due(p), p.begun[p.taken..], p.delivered, Concat(p.begun))
  }

  predicate StreamOk(p: Pipe) {
    && Sized(p.begun)
    && (!p.said ==> p.begun == [])
    && (!p.cut ==> p.lost == [])
    && match p.reading
       case Greeting(got) =>
         && |got| <= |RDY| && p.left == 0 && p.taken == 0 && p.delivered == [] && !p.eof && !p.failed
         && Ahead(p) == Greet(p.said) + Encode(p.begun)
       case _ =>
         && p.said
         && (p.reading.Header? ==> |p.reading.got| <= 4)
         && (if p.failed then
               && p.cut && p.chan == [] && p.delivered <= Concat(p.begun)
               && (p.reading.Header? ==> p.reading.got == [])
             else Aligned(p) && (p.reading.Header? ==> p.left == 0))
  }

  // ---- each pipe step keeps it ----

  /** One more frame at the sender's end. */
  lemma FitsSnoc(ahead: seq<byte>, due: nat, tail: seq<seq<byte>>, delivered: seq<byte>, all: seq<byte>,
                 payload: seq<byte>)
    requires Fits(ahead, due, tail, delivered, all)
    ensures Fits(ahead + Frame(payload), due, tail + [payload], delivered, all + payload)
  {
    EncodeSnoc(tail, payload);
    ConcatSnoc(tail, payload);
    ListSnoc(ahead, Frame(payload), due, Encode(tail), Concat(tail), delivered, all, payload);
  }

  lemma ListSnoc<T>(ahead: seq<T>, f: seq<T>, due: nat, e: seq<T>, c: seq<T>, delivered: seq<T>,
                    all: seq<T>, payload: seq<T>)
    requires due <= |ahead| && ahead[due..] == e && delivered + ahead[..due] + c == all
    ensures (ahead + f)[due..] == e + f && delivered + (ahead + f)[..due] + (c + payload) == all + payload
  {
    assert (ahead + f)[..due] == ahead[..due];
    assert (ahead + f)[due..] == ahead[due..] + f;
    Assoc(delivered + ahead[..due], c, payload);
  }

  /** The receiver has read the header of the next frame. */
  lemma FitsHeader(h: seq<byte>, rest: seq<byte>, tail: seq<seq<byte>>, delivered: seq<byte>, all: seq<byte>)
    requires |h| == 4 && Sized(tail) && Fits(h + rest, 0, tail, delivered, all)
    ensures tail != [] && |tail[0]| == FromLE32(h)
    ensures Fits(rest, FromLE32(h), tail[1..], delivered, all)
    ensures FromLE32(h) == 0 && |tail| == 1 ==> delivered == all
  {
    assert (h + rest)[0..] == h + rest;
    assert tail != [];
    hide FromLE32, LE32;
    var w := tail[0];
    ShortHeader(|w|);
    assert delivered + (h + rest)[..0] == delivered;
    ListHeader(h, rest, LE32(|w|), w, Encode(tail[1..]));
    Assoc(delivered, w, Concat(tail[1..]));
    assert w == [] && |tail| == 1 ==> delivered + w + Concat(tail[1..]) == delivered;
  }

  lemma ListHeader<T>(h: seq<T>, rest: seq<T>, head: seq<T>, w: seq<T>, more: seq<T>)
    requires |h| == |head| && h + rest == head + w + more
    ensures h == head && rest == w + more && rest[..|w|] == w && rest[|w|..] == more
  {
    Assoc(head, w, more);
    assert h == (h + rest)[..|h|] == (head + (w + more))[..|h|];
    assert rest == (h + rest)[|h|..] == (head + (w + more))[|h|..];
  }

  /** The receiver copies k bytes of the current frame. */
  lemma FitsCopy(ahead: seq<byte>, due: nat, tail: seq<seq<byte>>, delivered: seq<byte>, all: seq<byte>, k: nat)
    requires Fits(ahead, due, tail, delivered, all) && k <= due
    ensures Fits(ahead[k..], due - k, tail, delivered + ahead[..k], all)
  {
    ListCopy(ahead, due, Encode(tail), delivered, k);
  }

  lemma ListCopy<T>(ahead: seq<T>, due: nat, e: seq<T>, delivered: seq<T>, k: nat)
    requires k <= due <= |ahead| && ahead[due..] == e
    ensures ahead[k..][due - k..] == e
    ensures (delivered + ahead[..k]) + ahead[k..][..due - k] == delivered + ahead[..due]
  {
    assert ahead[..due] == ahead[..k] + ahead[k..][..due - k];
    Assoc(delivered, ahead[..k], ahead[k..][..due - k]);
  }

  lemma FitsPrefix(ahead: seq<byte>, due: nat, tail: seq<seq<byte>>, delivered: seq<byte>, all: seq<byte>)
    requires Fits(ahead, due, tail, delivered, all)
    ensures delivered <= all
  {
    Assoc(delivered, ahead[..due], Concat(tail));
  }

  // ---- each pipe step keeps the stream in order ----

  lemma StartKeeps(p: Pipe, payload: seq<byte>)
    requires StreamOk(p) && p.said && p.pend == [] && |payload| < LIMIT
    ensures StreamOk(Start(p, payload))
  {
    var q := Start(p, payload);
    AheadStart(p, payload);
    ConcatSnoc(p.begun, payload);
    if p.reading.Greeting? {
      EncodeSnoc(p.begun, payload);
      Assoc(Greet(p.said), Encode(p.begun), Frame(payload));
    } else if !p.failed {
      FitsSnoc(Ahead(p), Due(p), p.begun[p.taken..], p.delivered, Concat(p.begun), payload);
      assert q.begun[q.taken..] == p.begun[p.taken..] + [payload];
    }
  }

  lemma AheadStart(p: Pipe, payload: seq<byte>)
    requires p.pend == []
    ensures Ahead(Start(p, payload)) == Ahead(p) + Frame(payload)
  {
    ListEnd(InHand(p), p.chan + p.lost, Frame(payload));
  }

  lemma ListEnd<T>(a: seq<T>, b: seq<T>, f: seq<T>)
    ensures a + (b + f) == (a + (b + [])) + f
  {
    assert b + [] == b;
  }

  lemma TakeKeeps(p: Pipe, k: nat)
    requires StreamOk(p) && k <= |p.pend|
    ensures StreamOk(Take(p, k))
  {
    hide Fits, Encode, Concat;
    var q := Take(p, k);
    if p.cut {
      Shift(p.lost, p.pend, k);
      Assoc(p.chan, p.lost, p.pend);
      Assoc(q.chan, q.lost, q.pend);
    } else {
      Shift(p.chan, p.pend, k);
      assert p.chan + p.lost == p.chan && q.chan + q.lost == q.chan;
    }
    assert Ahead(q) == Ahead(p);
  }

  lemma SeverKeeps(p: Pipe, keep: nat)
    requires StreamOk(p)
    ensures StreamOk(Sever(p, keep))
  {
    hide Fits, Encode, Concat;
    var q := Sever(p, keep);
    var k := Min(keep, |p.chan|);
    assert p.chan == p.chan[..k] + p.chan[k..];
    Assoc(p.chan[..k], p.chan[k..], p.lost);
    assert Ahead(q) == Ahead(p);
  }

  lemma AbandonKeeps(p: Pipe)
    requires StreamOk(p) && p.cut
    ensures StreamOk(Abandon(p))
  {
    hide Fits, Encode, Concat;
    var q := Abandon(p);
    assert q.lost + q.pend == p.lost + p.pend;
    Assoc(p.chan, p.lost, p.pend);
    Assoc(q.chan, q.lost, q.pend);
    assert Ahead(q) == Ahead(p);
  }

  /** Taking k bytes off the transport: they are now in hand, or, inside a frame, delivered. */
  lemma AheadTake(p: Pipe, k: nat)
    requires k <= |p.chan|
    ensures (InHand(p) + p.chan[..k]) + (p.chan[k..] + p.lost + p.pend) == Ahead(p)
    ensures InHand(p) == [] ==> p.chan[k..] + p.lost + p.pend == Ahead(p)[k..] && p.chan[..k] == Ahead(p)[..k]
  {
    ListTake(InHand(p), p.chan, p.lost, p.pend, k);
  }

  lemma ListTake<T>(h: seq<T>, c: seq<T>, l: seq<T>, p: seq<T>, k: nat)
    requires k <= |c|
    ensures (h + c[..k]) + (c[k..] + l + p) == h + (c + l + p)
    ensures h == [] ==> c[k..] + l + p == (h + (c + l + p))[k..] && c[..k] == (h + (c + l + p))[..k]
  {
    Assoc(c, l, p);
    Assoc(c[k..], l, p);
    assert c == c[..k] + c[k..];
  }

  lemma HearKeeps(p: Pipe, k: nat)
    requires StreamOk(p) && p.reading.Greeting? && k <= |p.chan| && |p.reading.got| + k <= |RDY|
    ensures StreamOk(Hear(p, k))
  {
    hide Fits, Encode, Concat;
    AheadTake(p, k);
  }

  /** The three bytes of the handshake are "rdy" and the rest of the pipe starts at a frame. */
  lemma GreetingHeard(p: Pipe)
    requires StreamOk(p) && p.reading.Greeting? && |p.reading.got| == |RDY|
    ensures p.reading.got == RDY
    ensures StreamOk(p.(reading := Idle))
  {
    var q := p.(reading := Idle);
    var rest := p.chan + p.lost + p.pend;
    assert p.said;
    ListHeader(p.reading.got, rest, RDY, [], Encode(p.begun)) by {
      assert RDY + [] + Encode(p.begun) == RDY + Encode(p.begun);
    }
    assert Ahead(q) == rest;
    assert p.begun[0..] == p.begun;
    assert Ahead(q)[0..] == rest;
    assert q.delivered + Ahead(q)[..0] + Concat(p.begun) == Concat(p.begun);
  }

  lemma AskKeeps(p: Pipe, size: nat)
    requires StreamOk(p) && p.reading.Idle? && (size > 0 || p.left == 0)
    ensures StreamOk(Ask(p, size))
  {
  }

  lemma GetHeaderKeeps(p: Pipe, k: nat)
    requires StreamOk(p) && p.reading.Header? && 0 < k <= |p.chan| && |p.reading.got| + k <= 4
    ensures StreamOk(GetHeader(p, k))
  {
    hide Fits, Encode, Concat;
    AheadTake(p, k);
    assert Ahead(GetHeader(p, k)) == Ahead(p);
  }

  lemma UseHeaderKeeps(p: Pipe)
    requires StreamOk(p) && p.reading.Header? && |p.reading.got| == 4
    ensures StreamOk(UseHeader(p))
    ensures p.taken < |p.begun| && |p.begun[p.taken]| == FromLE32(p.reading.got)
    ensures UseHeader(p).eof && p.taken == |p.begun| - 1 ==> p.eof || p.delivered == Concat(p.begun)
  {
    hide Fits, Encode, Concat, FromLE32;
    var q := UseHeader(p);
    var tail := p.begun[p.taken..];
    var rest := p.chan + p.lost + p.pend;
    assert Ahead(p) == p.reading.got + rest;
    FitsHeader(p.reading.got, rest, tail, p.delivered, Concat(p.begun));
    assert tail[1..] == p.begun[q.taken..];
    assert Ahead(q) == rest;
  }

  lemma AheadBody(p: Pipe, k: nat)
    requires p.reading.Body? && k <= |p.chan| && k <= p.reading.need
    ensures var q := GetBody(p, k);
            && Ahead(q) == Ahead(p)[k..] && Due(q) == Due(p) - k && q.delivered == p.delivered + Ahead(p)[..k]
  {
    AheadTake(p, k);
    var q := GetBody(p, k);
    assert [] + (q.chan + q.lost + q.pend) == q.chan + q.lost + q.pend;
  }

  /** Bytes that are delivered were missing before. */
  lemma MoreWasMissing<T>(delivered: seq<T>, more: seq<T>, all: seq<T>)
    requires delivered + more <= all && more != []
    ensures delivered != all
  {
  }

  lemma GetBodyKeeps(p: Pipe, k: nat)
    requires StreamOk(p) && p.reading.Body? && 0 < k <= |p.chan| && k <= p.reading.need
    ensures StreamOk(GetBody(p, k))
    ensures p.delivered != Concat(p.begun)
  {
    AheadBody(p, k);
    hide Fits, Encode, Concat, Ahead, Due;
    var q := GetBody(p, k);
    FitsCopy(Ahead(p), Due(p), p.begun[p.taken..], p.delivered, Concat(p.begun), k) by {
      AheadLong(p, k);
    }
    FitsPrefix(Ahead(q), Due(q), p.begun[p.taken..], q.delivered, Concat(p.begun));
    AheadLong(p, k);
    MoreWasMissing(p.delivered, Ahead(p)[..k], Concat(p.begun));
  }

  lemma AheadLong(p: Pipe, k: nat)
    requires p.reading.Body? && k <= |p.chan| && k <= p.reading.need
    ensures k <= |Ahead(p)| && k <= Due(p)
  {
  }

  lemma EndBodyKeeps(p: Pipe)
    requires StreamOk(p) && p.reading.Body? && p.reading.need == 0
    ensures StreamOk(EndBody(p))
  {
    hide Fits, Encode, Concat;
    assert Ahead(EndBody(p)) == Ahead(p);
  }

  lemma FailKeeps(p: Pipe)
    requires StreamOk(p) && p.cut && p.chan == [] && (p.reading.Header? || p.reading.Body?)
    ensures StreamOk(Fail(p))
  {
    if !p.failed {
      FitsPrefix(Ahead(p), Due(p), p.begun[p.taken..], p.delivered, Concat(p.begun));
    }
  }

  // ---- the invariant of an endpoint ----

  /** Zero frames are never sent by Write, so a zero frame is the last one and CloseWrite's. */
  predicate ZeroLast(begun: seq<seq<byte>>, closedWrites: bool) {
    forall i :: 0 <= i < |begun| && begun[i] == [] ==> i == |begun| - 1 && closedWrites
  }

  /** An end of file handed to a reader: every byte of the stream has been delivered. */
  predicate EofOk(p: Pipe) {
    p.eof ==>
      && p.begun != [] && p.begun[|p.begun| - 1] == []
      && p.taken == |p.begun| && p.delivered == Concat(p.begun)
  }

  /** The sender's wire: what the transport took, then what is held back of the last frame, is
      everything started. */
  predicate WireOk(p: Pipe) {
    && |p.dropped| + |p.pend| <= LastFrame(p)
    && p.sent + (p.dropped + p.pend) == p.started
    && (!p.said ==> p.started == [])
  }

  function LastFrame(p: Pipe): nat {
    if p.begun == [] then |RDY| else 4 + |p.begun[|p.begun| - 1]|
  }

  predicate StartedOk(p: Pipe) {
    p.started == Greet(p.said) + Encode(p.begun) && (!p.said ==> p.begun == [])
  }

  predicate SenderOk(me: End, p: Pipe) {
    && (p.said <==> !me.hello.Unsaid?)
    && (me.hello.Unsaid? ==> p.pend == [])
    && (p.begun != [] || me.lock.Held? || me.broken ==> me.hello.Said?)
    && (me.hello.Said? && me.lock.Free? ==> p.pend == [])
    && (me.lock.Held? ==> (me.lock.closing <==> me.closedWrites))
    && (me.closedWrites ==> me.hello.Said?)
    && me.writesChanClosed == (if me.closedWrites && !(me.lock.Held? && me.lock.closing) then 1 else 0)
    && (if me.broken then p.cut && p.pend == [] else p.dropped == [])
  }

  predicate ReceiverOk(me: End, p: Pipe) {
    && me.readsChanClosed == (if me.closedReads then 1 else 0)
    && (me.closedReads ==> p.reading.Idle?)
  }

  predicate CloserOk(me: End) {
    && (me.closer.InWrite? <==> me.lock.Held? && me.lock.byClose)
    && (me.lock.Held? && me.lock.byClose ==> me.lock.closing)
    && (me.closer.WantRead? || me.closer.WantTransport? || me.closer.Finished? ==> me.closedWrites)
    && (me.closer.WantTransport? || me.closer.Finished? || me.transportClosed ==> me.closedReads && me.closedWrites)
    && (!me.closer.NotCalled? ==> me.hello.Said?)
    && (me.closer.WantRead? || me.closer.WantTransport? || me.closer.Finished? || me.transportClosed ==>
          me.writesChanClosed == 1)
  }

  // ---- flags: no stream is looked at ----

  lemma SenderKeeps(s: Side, v: View, e: Event)
    requires Enabled(s, v, e) && SenderOk(v.me, v.out) && CloserOk(v.me)
    ensures SenderOk(Local(s, v, e).me, Local(s, v, e).out)
  {
    hide Frame, FromLE32, Min, Hear, GetHeader, UseHeader, GetBody, EndBody, Ask;
  }

  /** A step starts at most one frame, and none once the writes are closed. */
  lemma FramesMove(s: Side, v: View, e: Event)
    requires Enabled(s, v, e)
    ensures var w := Local(s, v, e);
            var payload := if e.BeginWrite? then e.payload else [];
            || (w.out.begun == v.out.begun && (v.me.closedWrites ==> w.me.closedWrites))
            || (w.out.begun == v.out.begun + [payload] && !v.me.closedWrites && (e.BeginWrite? || w.me.closedWrites))
  {
    hide Frame, Min, Hear, GetHeader, UseHeader, GetBody, EndBody, Ask, Fail;
    match e
    case BeginWrite(_) =>
    case BeginCloseWrite =>
    case CloserWrites =>
    case _ =>
  }

  lemma ZeroKeeps(s: Side, v: View, e: Event)
    requires Enabled(s, v, e) && ZeroLast(v.out.begun, v.me.closedWrites)
    requires e.BeginWrite? ==> e.payload != []
    ensures ZeroLast(Local(s, v, e).out.begun, Local(s, v, e).me.closedWrites)
  {
    hide Local, Enabled;
    FramesMove(s, v, e);
  }

  lemma WelcomeKeeps(s: Side, v: View, e: Event)
    requires Enabled(s, v, e) && !v.me.refused && (e.CheckHello? ==> v.inn.reading.got == RDY)
    ensures !Local(s, v, e).me.refused
  {
    hide Frame, FromLE32, Min, Take, Hear, GetHeader, UseHeader, GetBody, EndBody, Sever, Abandon, Start, Ask;
  }

  lemma CloserKeeps(s: Side, v: View, e: Event)
    requires Enabled(s, v, e) && CloserOk(v.me)
    requires SenderOk(v.me, v.out) && ReceiverOk(v.me, v.inn)
    ensures CloserOk(Local(s, v, e).me)
  {
    hide Frame, FromLE32, Min, Take, Hear, GetHeader, UseHeader, GetBody, EndBody, Sever, Abandon, Start, Ask;
  }

  lemma ReceiverKeeps(s: Side, v: View, e: Event)
    requires Enabled(s, v, e) && ReceiverOk(v.me, v.inn)
    ensures ReceiverOk(Local(s, v, e).me, Local(s, v, e).inn)
  {
    hide Frame, FromLE32, Min, Take, Abandon, Start;
  }

  lemma PeerSends(s: Side, v: View, e: Event, peer: End)
    requires Enabled(s, v, e) && SenderOk(peer, v.inn)
    ensures SenderOk(peer, Local(s, v, e).inn)
  {
    hide Frame, FromLE32, Min, Take, Abandon, Start;
  }

  lemma PeerReceives(s: Side, v: View, e: Event, peer: End)
    requires Enabled(s, v, e) && ReceiverOk(peer, v.out)
    ensures ReceiverOk(peer, Local(s, v, e).out)
  {
    hide Frame, FromLE32, Min, Hear, GetHeader, UseHeader, GetBody, EndBody, Ask, Fail;
  }

  // ---- streams ----

  lemma StartedStart(p: Pipe, payload: seq<byte>)
    requires StartedOk(p) && p.said
    ensures StartedOk(Start(p, payload))
  {
    EncodeSnoc(p.begun, payload);
    Assoc(Greet(p.said), Encode(p.begun), Frame(payload));
  }

  lemma StartedKeeps(s: Side, v: View, e: Event)
    requires Enabled(s, v, e) && SenderOk(v.me, v.out) && StartedOk(v.out)
    requires CloserOk(v.me)
    ensures StartedOk(Local(s, v, e).out)
  {
    hide Frame;
    match e
    case SayHello => assert Encode(v.out.begun) == [];
    case BeginWrite(payload) => StartedStart(v.out, payload);
    case BeginCloseWrite => StartedStart(v.out, []);
    case CloserWrites => StartedStart(v.out, []);
    case _ =>
  }

  lemma WireStart(p: Pipe, payload: seq<byte>)
    requires WireOk(p) && p.said && p.pend == [] && p.dropped == []
    ensures WireOk(Start(p, payload))
  {
    ListWire(p.sent, p.dropped, p.pend, Frame(payload));
  }

  lemma ListWire<T>(sent: seq<T>, dropped: seq<T>, pend: seq<T>, f: seq<T>)
    requires dropped == [] && pend == []
    ensures sent + (dropped + f) == (sent + (dropped + pend)) + f
  {
    assert dropped + pend == [] && dropped + f == f;
  }

  lemma WireTake(p: Pipe, k: nat)
    requires WireOk(p) && k <= |p.pend| && (p.dropped == [] || p.pend == [])
    ensures WireOk(Take(p, k))
  {
    ListPush(p.sent, p.dropped, p.pend, k);
  }

  lemma ListPush<T>(sent: seq<T>, dropped: seq<T>, pend: seq<T>, k: nat)
    requires k <= |pend| && (dropped == [] || pend == [])
    ensures (sent + pend[..k]) + (dropped + pend[k..]) == sent + (dropped + pend)
  {
    if dropped == [] {
      assert dropped + pend[k..] == pend[k..] && dropped + pend == pend;
      Shift(sent, pend, k);
    } else {
      assert pend[..k] == [] && pend[k..] == pend;
    }
  }

  lemma WireAbandon(p: Pipe)
    requires WireOk(p) && p.dropped == []
    ensures WireOk(Abandon(p))
  {
    assert p.dropped + p.pend == p.pend == p.pend + [];
  }

  lemma SayKeeps(p: Pipe)
    requires StreamOk(p) && !p.said && p.pend == []
    ensures StreamOk(p.(said := true, started := RDY, pend := RDY))
  {
    assert Ahead(p) == [];
    assert Ahead(p.(said := true, started := RDY, pend := RDY)) == Ahead(p) + RDY;
  }

  /** The side's outgoing stream. */
  lemma OutKeeps(s: Side, v: View, e: Event)
    requires Enabled(s, v, e) && SenderOk(v.me, v.out) && StreamOk(v.out)
    requires e.BeginWrite? ==> Sendable(e.payload)
    requires CloserOk(v.me)
    ensures StreamOk(Local(s, v, e).out)
  {
    hide Fits, Encode, Concat;
    match e
    case SayHello =>
      SayKeeps(v.out);
    case Push(k) => TakeKeeps(v.out, k);
    case BeginWrite(payload) => StartKeeps(v.out, payload);
    case BeginCloseWrite => StartKeeps(v.out, []);
    case CloserWrites => StartKeeps(v.out, []);
    case FailWrite => AbandonKeeps(v.out);
    case CloserTransport(k, _) => SeverKeeps(v.out, k);
    case Reaper(k, _) => SeverKeeps(v.out, k);
    case Cut(k) => SeverKeeps(v.out, k);
    case _ =>
  }

  /** ... and its wire. */
  lemma WireKeeps(s: Side, v: View, e: Event)
    requires Enabled(s, v, e) && SenderOk(v.me, v.out) && WireOk(v.out)
    requires CloserOk(v.me)
    ensures WireOk(Local(s, v, e).out)
  {
    match e
    case SayHello =>
      assert v.out.sent == [] && v.out.dropped + RDY == RDY;
    case Push(k) => WireTake(v.out, k);
    case BeginWrite(payload) => if !v.me.broken { WireStart(v.out, payload); }
    case BeginCloseWrite => if !v.me.broken { WireStart(v.out, []); }
    case CloserWrites => if !v.me.broken { WireStart(v.out, []); }
    case FailWrite => WireAbandon(v.out);
    case _ =>
  }

  /** The side's incoming stream. */
  lemma InKeeps(s: Side, v: View, e: Event)
    requires Enabled(s, v, e) && StreamOk(v.inn)
    requires e.BeginRead? ==> e.size > 0 || v.inn.left == 0
    ensures StreamOk(Local(s, v, e).inn)
  {
    hide Fits, Encode, Concat;
    match e
    case HearHello(k) => HearKeeps(v.inn, k);
    case CheckHello => GreetingHeard(v.inn);
    case BeginRead(size) => AskKeeps(v.inn, size);
    case TakeHeader(k) => GetHeaderKeeps(v.inn, k);
    case HeaderDone => UseHeaderKeeps(v.inn);
    case TakeBody(k) => GetBodyKeeps(v.inn, k);
    case BodyDone => EndBodyKeeps(v.inn);
    case FailRead => FailKeeps(v.inn);
    case CloserTransport(_, k) => SeverKeeps(v.inn, k);
    case Reaper(_, k) => SeverKeeps(v.inn, k);
    case _ =>
  }

  // ---- end of file ----

  lemma EofOutKeeps(s: Side, v: View, e: Event)
    requires Enabled(s, v, e) && SenderOk(v.me, v.out) && EofOk(v.out) && ZeroLast(v.out.begun, v.me.closedWrites)
    ensures EofOk(Local(s, v, e).out)
  {
  }

  lemma EofInKeeps(s: Side, v: View, e: Event, peer: End)
    requires Enabled(s, v, e) && StreamOk(v.inn) && EofOk(v.inn) && ZeroLast(v.inn.begun, peer.closedWrites)
    ensures EofOk(Local(s, v, e).inn)
  {
    hide Aligned, Encode, Concat, FromLE32;
    match e
    case HeaderDone =>
      UseHeaderKeeps(v.inn);
      assert FromLE32(v.inn.reading.got) == 0 ==> v.inn.begun[v.inn.taken] == [];
    case TakeBody(k) => GetBodyKeeps(v.inn, k);
    case _ =>
  }

  // ---- the whole link ----

  /** What holds of one direction whatever the callers do ... */
  predicate BaseOk(sender: End, p: Pipe, receiver: End) {
    WireOk(p) && StartedOk(p) && SenderOk(sender, p) && ReceiverOk(receiver, p)
  }

  /** ... and what their discipline adds. */
  predicate DirOk(sender: End, p: Pipe, receiver: End) {
    StreamOk(p) && EofOk(p) && ZeroLast(p.begun, sender.closedWrites) && !receiver.refused
  }

  predicate Base(l: Link) {
    && BaseOk(l.host, l.down, l.guest) && BaseOk(l.guest, l.up, l.host)
    && CloserOk(l.host) && CloserOk(l.guest)
  }

  predicate Inv(l: Link) {
    Base(l) && DirOk(l.host, l.down, l.guest) && DirOk(l.guest, l.up, l.host)
  }

  lemma BaseKeeps(s: Side, v: View, e: Event, peer: End)
    requires Enabled(s, v, e) && BaseOk(v.me, v.out, peer) && BaseOk(peer, v.inn, v.me) && CloserOk(v.me)
    ensures var w := Local(s, v, e);
            BaseOk(w.me, w.out, peer) && BaseOk(peer, w.inn, w.me) && CloserOk(w.me)
  {
    hide WireOk, StartedOk, SenderOk, ReceiverOk, CloserOk, Local, SameBooks;
    WireKeeps(s, v, e);
    StartedKeeps(s, v, e);
    SenderKeeps(s, v, e);
    CloserKeeps(s, v, e);
    ReceiverKeeps(s, v, e);
    PeerSends(s, v, e, peer);
    PeerReceives(s, v, e, peer);
    InSame(s, v, e);
    BooksKeep(v.inn, Local(s, v, e).inn);
  }

  lemma SideKeeps(s: Side, v: View, e: Event, peer: End)
    requires Enabled(s, v, e) && SenderOk(v.me, v.out) && CloserOk(v.me)
    requires DirOk(v.me, v.out, peer) && DirOk(peer, v.inn, v.me)
    requires e.BeginWrite? ==> Sendable(e.payload)
    requires e.BeginRead? ==> e.size > 0 || v.inn.left == 0
    ensures var w := Local(s, v, e); DirOk(w.me, w.out, peer) && DirOk(peer, w.inn, w.me)
  {
    assert e.CheckHello? ==> v.inn.reading.got == RDY by {
      if e.CheckHello? {
        GreetingHeard(v.inn);
      }
    }
    hide StreamOk, EofOk, SenderOk, CloserOk, Local, ZeroLast;
    OutKeeps(s, v, e);
    InKeeps(s, v, e);
    ZeroKeeps(s, v, e);
    WelcomeKeeps(s, v, e);
    EofOutKeeps(s, v, e);
    EofInKeeps(s, v, e, peer);
    InSame(s, v, e);
  }

  predicate SameBooks(p: Pipe, q: Pipe) {
    && p.sent == q.sent && p.dropped == q.dropped && p.pend == q.pend && p.started == q.started
    && p.begun == q.begun && p.said == q.said
  }

  /** Reading does not touch the sender's books. */
  lemma InSame(s: Side, v: View, e: Event)
    requires Enabled(s, v, e)
    ensures SameBooks(v.inn, Local(s, v, e).inn)
  {
    hide Frame, FromLE32, Min;
  }

  lemma BooksKeep(p: Pipe, q: Pipe)
    requires SameBooks(p, q) && WireOk(p) && StartedOk(p)
    ensures WireOk(q) && StartedOk(q)
  {
  }

  lemma StepKeepsBase(l: Link, st: Step)
    requires Base(l) && Apply(l, st).Some?
    ensures Base(Apply(l, st).value)
  {
    hide BaseOk, CloserOk, Local, Enabled;
    BaseKeeps(st.side, ViewOf(l, st.side), st.event, if st.side.Host? then l.guest else l.host);
  }

  lemma StepKeeps(l: Link, st: Step)
    requires Inv(l) && Disciplined(l, st) && Apply(l, st).Some?
    ensures Inv(Apply(l, st).value)
  {
    StepKeepsBase(l, st);
    hide Base, DirOk, Local, Enabled;
    assert SenderOk(ViewOf(l, st.side).me, ViewOf(l, st.side).out) && CloserOk(ViewOf(l, st.side).me) by {
      BaseParts(l, st.side);
    }
    SideKeeps(st.side, ViewOf(l, st.side), st.event, if st.side.Host? then l.guest else l.host);
  }

  lemma BaseParts(l: Link, s: Side)
    requires Base(l)
    ensures var v := ViewOf(l, s);
            && SenderOk(v.me, v.out) && CloserOk(v.me) && ReceiverOk(v.me, v.inn) && WireOk(v.out) && StartedOk(v.out)
  {
    hide SenderOk, ReceiverOk, WireOk, StartedOk, CloserOk;
  }

  /** Every schedule, whatever the callers do. */
  lemma {:induction false} AnyRunKeeps(steps: seq<Step>)
    requires Run(steps).Some?
    ensures Base(Run(steps).value)
  {
    if steps != [] {
      hide Base, Apply;
      var before := steps[..|steps| - 1];
      AnyRunKeeps(before);
      StepKeepsBase(Run(before).value, steps[|steps| - 1]);
    }
  }

  /** Every schedule with disciplined callers. */
  lemma {:induction false} RunKeeps(steps: seq<Step>)
    requires DisciplinedRun(steps) && Run(steps).Some?
    ensures Inv(Run(steps).value)
  {
    if steps != [] {
      hide Inv, Apply, Disciplined;
      var before := steps[..|steps| - 1];
      RunKeeps(before);
      StepKeeps(Run(before).value, steps[|steps| - 1]);
    }
  }

  // ---- theorems about every run ----

  /** The bytes the sender's Write calls have accepted. */
  function Written(p: Pipe): seq<byte> {
    Concat(p.begun)
  }

  lemma DeliveredPrefix(p: Pipe)
    requires StreamOk(p)
    ensures p.delivered <= Written(p)
  {
    hide Encode, Concat;
    if !p.reading.Greeting? && !p.failed {
      FitsPrefix(Ahead(p), Due(p), p.begun[p.taken..], p.delivered, Concat(p.begun));
    }
  }

  /** Frames that only a close frame ends are read as their payloads. */
  lemma {:induction false} TailDecodes(tail: seq<seq<byte>>)
    requires Sized(tail) && forall i :: 0 <= i < |tail| - 1 ==> tail[i] != []
    ensures DecodeFrames(Encode(tail)) == Concat(tail)
  {
    hide Frame, Decode, FromLE32;
    if tail != [] {
      var rest := Encode(tail[1..]);
      if tail[0] == [] {
        assert tail[1..] == [] && Frame([]) + rest == Frame([]);
        CloseFrameEmpty();
      } else {
        assert Sendable(tail[0]);
        DecodeFrame(tail[0], rest);
        TailDecodes(tail[1..]);
      }
    }
  }

  lemma FitsDecodes(ahead: seq<byte>, due: nat, tail: seq<seq<byte>>, delivered: seq<byte>, all: seq<byte>)
    requires Fits(ahead, due, tail, delivered, all)
    requires Sized(tail) && forall i :: 0 <= i < |tail| - 1 ==> tail[i] != []
    ensures delivered + Decode(due, ahead) == all
  {
    hide Encode, Concat, DecodeFrames;
    TailDecodes(tail);
    if |ahead| == due {
      assert ahead[due..] == [] && ahead[..due] == ahead;
      NothingEncoded();
      assert delivered + ahead + Concat(tail) == delivered + ahead;
    } else {
      Assoc(delivered, ahead[..due], Concat(tail));
    }
  }

  lemma NothingEncoded()
    ensures DecodeFrames([]) == []
  {
  }

  /**
   No handshake between the two builders is ever refused, and a side leaves it with the transport
   positioned exactly at the first frame its peer writes.
   */
  lemma HandshakeAligned(steps: seq<Step>, s: Side)
    requires DisciplinedRun(steps) && Run(steps).Some?
    ensures Enabled(s, ViewOf(Run(steps).value, s), CheckHello) ==>
            var w := Local(s, ViewOf(Run(steps).value, s), CheckHello);
            && !w.me.refused && w.inn.reading.Idle? && w.inn.left == 0 && w.inn.delivered == []
            && w.inn.chan + w.inn.lost + w.inn.pend == Encode(w.inn.begun)
  {
    hide Base, Run, DisciplinedRun, Concat, Encode;
    RunKeeps(steps);
    var p := ViewOf(Run(steps).value, s).inn;
    if Enabled(s, ViewOf(Run(steps).value, s), CheckHello) {
      GreetingHeard(p);
      HandshakeRest(p);
    }
  }

  lemma HandshakeRest(p: Pipe)
    requires StreamOk(p) && p.reading.Greeting? && p.reading.got == RDY
    ensures p.chan + p.lost + p.pend == Encode(p.begun)
  {
    var rest := p.chan + p.lost + p.pend;
    assert p.said;
    assert RDY + rest == RDY + Encode(p.begun);
    assert rest == (RDY + rest)[|RDY|..];
    assert Encode(p.begun) == (RDY + Encode(p.begun))[|RDY|..];
  }

  /**
   For any number of writers, whatever they write, the wire is at every moment the greeting, whole
   frames in lock order and at most one unfinished frame, which belongs to the holder of writeLock
   unless the transport has already failed it.
   */
  lemma WireIsWholeFrames(steps: seq<Step>, s: Side)
    requires Run(steps).Some? && ViewOf(Run(steps).value, s).out.begun != []
    ensures var v := ViewOf(Run(steps).value, s);
            var n := |v.out.begun| - 1;
            var whole := RDY + Encode(v.out.begun[..n]);
            && whole <= v.out.sent <= whole + Frame(v.out.begun[n])
            && (v.out.sent != whole + Frame(v.out.begun[n]) ==> v.me.lock.Held? || v.me.broken)
  {
    hide Run, Base, ReceiverOk, CloserOk, Encode, Frame;
    AnyRunKeeps(steps);
    BaseParts(Run(steps).value, s);
    var v := ViewOf(Run(steps).value, s);
    var n := |v.out.begun| - 1;
    LastFrameApart(v.out.begun);
    assert |Frame(v.out.begun[n])| == 4 + |v.out.begun[n]| by {
      FrameLength(v.out.begun[n]);
    }
    ListWhole(v.out.sent, v.out.dropped + v.out.pend, RDY, Encode(v.out.begun[..n]), Frame(v.out.begun[n]));
    if v.me.lock.Free? && !v.me.broken {
      assert v.out.sent + (v.out.dropped + v.out.pend) == v.out.sent;
    }
  }

  /** With no empty write, a frame of length zero occurs at most once, at the end, and only after
      CloseWrite. */
  lemma ZeroFrameLast(steps: seq<Step>, s: Side, i: nat)
    requires DisciplinedRun(steps) && Run(steps).Some?
    requires i < |ViewOf(Run(steps).value, s).out.begun| && ViewOf(Run(steps).value, s).out.begun[i] == []
    ensures i == |ViewOf(Run(steps).value, s).out.begun| - 1 && ViewOf(Run(steps).value, s).me.closedWrites
  {
    hide Run, DisciplinedRun, Base, StreamOk, EofOk;
    RunKeeps(steps);
  }

  lemma LastFrameApart(begun: seq<seq<byte>>)
    requires begun != []
    ensures Encode(begun) == Encode(begun[..|begun| - 1]) + Frame(begun[|begun| - 1])
  {
    hide Encode, Frame;
    var front, last := begun[..|begun| - 1], begun[|begun| - 1];
    assert begun == front + [last];
    EncodeSnoc(front, last);
  }

  lemma ListWhole<T>(sent: seq<T>, held: seq<T>, greet: seq<T>, whole: seq<T>, last: seq<T>)
    requires sent + held == greet + (whole + last) && |held| <= |last|
    ensures greet + whole <= sent <= greet + whole + last
    ensures held == [] ==> sent == greet + whole + last
  {
    var all := greet + whole + last;
    Assoc(greet, whole, last);
    assert sent == all[..|sent|];
    assert greet + whole == all[..|greet + whole|];
  }

  /**
   Closing: whatever the callers do and whatever the interleaving of Close, CloseRead, CloseWrite and
   closeConn, neither close channel is closed twice (which would panic), and this side's code closes the
   transport only after both halves are marked closed, the close frame handed over and no frame of its
   own unfinished.
   */
  lemma ClosesOnce(steps: seq<Step>, s: Side)
    requires Run(steps).Some?
    ensures var me := ViewOf(Run(steps).value, s).me;
            && me.writesChanClosed <= 1 && me.readsChanClosed <= 1
            && (me.transportClosed ==>
                  me.closedReads && me.closedWrites && me.writesChanClosed == 1
                  && ViewOf(Run(steps).value, s).out.pend == [])
            && (me.writesChanClosed == 1 ==> me.closedWrites && ViewOf(Run(steps).value, s).out.pend == [])
  {
    hide Run, Base, WireOk, StartedOk;
    AnyRunKeeps(steps);
    BaseParts(Run(steps).value, s);
  }

  /**
   The condition on Read, both ways: with the receiver in step, a Read leaves it in step exactly
   when its buffer is nonempty or no byte of the current frame is due.
   */
  lemma ReadStaysAlignedExactly(p: Pipe, size: nat)
    requires StreamOk(p) && p.reading.Idle? && !p.failed
    ensures Aligned(Ask(p, size)) <==> size > 0 || p.left == 0
  {
    hide Encode, Concat;
    var q := Ask(p, size);
    assert Ahead(q) == Ahead(p);
    if size == 0 && p.left > 0 {
      assert |Ahead(p)[p.left..]| != |Ahead(p)[0..]|;
    }
  }
}
