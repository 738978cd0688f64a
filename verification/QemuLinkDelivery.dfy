/** What the qemu link can always do: for every side and every sequence of sendable writes there is a
    schedule in which the peer reads exactly those bytes and then end of file, and a Close that has been
    called can come to its end. */
module QemuLinkDelivery {
  import opened Bytes
  import opened Framing
  import opened QemuLink
  import opened QemuLinkProof
  import opened QemuLinkSchedule
  import opened QemuLinkWitness

  /** A possible and disciplined schedule that ends in l. */
  predicate Reaches(steps: seq<Step>, l: Link) {
    Run(steps) == Some(l) && DisciplinedRun(steps)
  }

  lemma Further(steps: seq<Step>, l: Link, side: Side, e: Event, m: Link)
    requires Reaches(steps, l) && Enabled(side, ViewOf(l, side), e) && Disciplined(l, Step(side, e))
    requires Update(l, side, Local(side, ViewOf(l, side), e)) == m
    ensures Reaches(steps + [Step(side, e)], m)
  {
    Extend(steps, l, side, e, m);
    hide Run, Enabled, Local, Update, ViewOf, Disciplined;
    var more := steps + [Step(side, e)];
    assert more[..|more| - 1] == steps;
  }

  /** Side s writes, its peer is ready to read. */
  function Joined(s: Side, me: End, p: Pipe): Link {
    if s.Host? then Link(me, UP, p, OPEN) else Link(UP, me, OPEN, p)
  }

  function Carry(begun: seq<seq<byte>>, chan: seq<byte>, reading: Reading, taken: nat, delivered: seq<byte>): Pipe {
    OPEN.(begun := begun, started := RDY + Encode(begun), sent := RDY + Encode(begun), chan := chan,
          reading := reading, taken := taken, delivered := delivered)
  }

  function Busy(closing: bool): End {
    UP.(lock := Held(closing, false), closedWrites := closing)
  }

  function Done(closing: bool): End {
    if closing then UP.(closedWrites := true, writesChanClosed := 1) else UP
  }

  /** The pipe while the frame is with the sender. */
  function Holding(begun: seq<seq<byte>>, payload: seq<byte>): Pipe {
    Carry(begun, [], Idle, |begun|, Concat(begun))
      .(begun := begun + [payload], started := RDY + Encode(begun) + Frame(payload), pend := Frame(payload))
  }

  /** One frame is written: its start, the transport's share, the return. */
  lemma FrameBegins(steps: seq<Step>, s: Side, begun: seq<seq<byte>>, payload: seq<byte>, closing: bool)
    requires Reaches(steps, Joined(s, UP, Carry(begun, [], Idle, |begun|, Concat(begun))))
    requires if closing then payload == [] else Sendable(payload)
    ensures Reaches(steps + [Step(s, if closing then BeginCloseWrite else BeginWrite(payload))],
                    Joined(s, Busy(closing), Holding(begun, payload)))
  {
    hide Reaches, Encode, Frame, Concat;
    var e := if closing then BeginCloseWrite else BeginWrite(payload);
    var p := Carry(begun, [], Idle, |begun|, Concat(begun));
    Further(steps, Joined(s, UP, p), s, e, Joined(s, Busy(closing), Holding(begun, payload)));
  }

  lemma TakenWhole(begun: seq<seq<byte>>, payload: seq<byte>)
    ensures |Holding(begun, payload).pend| == 4 + |payload|
    ensures Take(Holding(begun, payload), 4 + |payload|) ==
            Carry(begun + [payload], Frame(payload), Idle, |begun|, Concat(begun))
  {
    FrameLength(payload);
    EncodeSnoc(begun, payload);
    hide Encode, Frame, Concat;
    Whole(Frame(payload));
    Assoc(RDY, Encode(begun), Frame(payload));
  }

  lemma FramePushed(steps: seq<Step>, s: Side, begun: seq<seq<byte>>, payload: seq<byte>, closing: bool)
    requires Reaches(steps, Joined(s, Busy(closing), Holding(begun, payload)))
    ensures Reaches(steps + [Step(s, Push(4 + |payload|))],
                    Joined(s, Busy(closing), Carry(begun + [payload], Frame(payload), Idle, |begun|, Concat(begun))))
  {
    hide Reaches, Encode, Frame, Concat, Holding, Carry, Take;
    TakenWhole(begun, payload);
    var p := Holding(begun, payload);
    Further(steps, Joined(s, Busy(closing), p), s, Push(4 + |payload|),
            Joined(s, Busy(closing), Take(p, 4 + |payload|)));
  }

  lemma WriteReturns(steps: seq<Step>, s: Side, p: Pipe, closing: bool)
    requires Reaches(steps, Joined(s, Busy(closing), p)) && p.pend == []
    ensures Reaches(steps + [Step(s, EndWrite)], Joined(s, Done(closing), p))
  {
    hide Reaches;
    Further(steps, Joined(s, Busy(closing), p), s, EndWrite, Joined(s, Done(closing), p));
  }

  lemma FrameSent(steps: seq<Step>, s: Side, begun: seq<seq<byte>>, payload: seq<byte>, closing: bool)
    requires Reaches(steps, Joined(s, Busy(closing), Holding(begun, payload)))
    ensures Reaches(steps + [Step(s, Push(4 + |payload|))] + [Step(s, EndWrite)],
                    Joined(s, Done(closing), Carry(begun + [payload], Frame(payload), Idle, |begun|, Concat(begun))))
  {
    hide Reaches, Encode, Frame, Concat, Joined, Holding;
    FramePushed(steps, s, begun, payload, closing);
    var p := Carry(begun + [payload], Frame(payload), Idle, |begun|, Concat(begun));
    WriteReturns(steps + [Step(s, Push(4 + |payload|))], s, p, closing);
  }

  /** A step of the peer's Read takes the pipe from p to q. */
  predicate Reads(p: Pipe, e: Event, q: Pipe) {
    match e
    case BeginRead(size) => p.reading.Idle? && size > 0 && q == Ask(p, size)
    case TakeHeader(k) =>
      p.reading.Header? && 0 < k <= |p.chan| && |p.reading.got| + k <= 4 && q == GetHeader(p, k)
    case HeaderDone => p.reading.Header? && |p.reading.got| == 4 && q == UseHeader(p)
    case TakeBody(k) => p.reading.Body? && 0 < k <= |p.chan| && k <= p.reading.need && q == GetBody(p, k)
    case BodyDone => p.reading.Body? && p.reading.need == 0 && q == EndBody(p)
    case _ => false
  }

  lemma ReaderStep(steps: seq<Step>, s: Side, me: End, p: Pipe, e: Event, q: Pipe)
    requires Reaches(steps, Joined(s, me, p)) && Reads(p, e, q)
    ensures Reaches(steps + [Step(Other(s), e)], Joined(s, me, q))
  {
    hide Reaches, Ask, GetHeader, UseHeader, GetBody, EndBody, Frame, Take;
    Further(steps, Joined(s, me, p), Other(s), e, Joined(s, me, q));
  }

  /** The peer reads the header of the frame. */
  lemma HeaderTaken(steps: seq<Step>, s: Side, me: End, begun: seq<seq<byte>>, payload: seq<byte>, size: nat,
                    taken: nat, delivered: seq<byte>)
    requires size > 0 && Reaches(steps, Joined(s, me, Carry(begun, Frame(payload), Idle, taken, delivered)))
    ensures Reaches(steps + [Step(Other(s), BeginRead(size))] + [Step(Other(s), TakeHeader(4))],
                    Joined(s, me, Carry(begun, payload, Header(size, LE32(|payload|)), taken, delivered)))
  {
    hide Reaches, Joined, Encode;
    HeaderApart(begun, payload, size, taken, delivered);
    var p := Carry(begun, Frame(payload), Idle, taken, delivered);
    var q := Carry(begun, Frame(payload), Header(size, []), taken, delivered);
    var t := Carry(begun, payload, Header(size, LE32(|payload|)), taken, delivered);
    hide Carry, Frame, LE32;
    ReaderStep(steps, s, me, p, BeginRead(size), q);
    ReaderStep(steps + [Step(Other(s), BeginRead(size))], s, me, q, TakeHeader(4), t);
  }

  lemma HeaderApart(begun: seq<seq<byte>>, payload: seq<byte>, size: nat, taken: nat, delivered: seq<byte>)
    requires size > 0
    ensures var p := Carry(begun, Frame(payload), Idle, taken, delivered);
            var q := Carry(begun, Frame(payload), Header(size, []), taken, delivered);
            var t := Carry(begun, payload, Header(size, LE32(|payload|)), taken, delivered);
            Reads(p, BeginRead(size), q) && Reads(q, TakeHeader(4), t)
  {
    FrameLength(payload);
    var h := LE32(|payload|);
    assert Frame(payload)[..4] == h && Frame(payload)[4..] == payload && [] + h == h;
    hide Encode, Frame, LE32;
  }

  /** ... and then the whole payload. */
  lemma BodyTaken(steps: seq<Step>, s: Side, me: End, begun: seq<seq<byte>>, payload: seq<byte>, h: seq<byte>,
                  taken: nat, delivered: seq<byte>)
    requires |h| == 4 && FromLE32(h) == |payload| > 0
    requires Reaches(steps, Joined(s, me, Carry(begun, payload, Header(|payload|, h), taken, delivered)))
    ensures Reaches(steps + [Step(Other(s), HeaderDone)] + [Step(Other(s), TakeBody(|payload|))]
                    + [Step(Other(s), BodyDone)],
                    Joined(s, me, Carry(begun, [], Idle, taken + 1, delivered + payload)))
  {
    hide Reaches, Joined, Encode, FromLE32;
    BodyApart(begun, payload, h, taken, delivered);
    var r, n := Other(s), |payload|;
    var p := Carry(begun, payload, Header(n, h), taken, delivered);
    var q := Carry(begun, payload, Body(n, 0), taken + 1, delivered);
    var t := Carry(begun, [], Body(0, 0), taken + 1, delivered + payload);
    var u := Carry(begun, [], Idle, taken + 1, delivered + payload);
    hide Carry;
    ReaderStep(steps, s, me, p, HeaderDone, q);
    ReaderStep(steps + [Step(r, HeaderDone)], s, me, q, TakeBody(n), t);
    ReaderStep(steps + [Step(r, HeaderDone)] + [Step(r, TakeBody(n))], s, me, t, BodyDone, u);
  }

  lemma BodyApart(begun: seq<seq<byte>>, payload: seq<byte>, h: seq<byte>, taken: nat, delivered: seq<byte>)
    requires |h| == 4 && FromLE32(h) == |payload| > 0
    ensures var n := |payload|;
            var p := Carry(begun, payload, Header(n, h), taken, delivered);
            var q := Carry(begun, payload, Body(n, 0), taken + 1, delivered);
            var t := Carry(begun, [], Body(0, 0), taken + 1, delivered + payload);
            var u := Carry(begun, [], Idle, taken + 1, delivered + payload);
            Reads(p, HeaderDone, q) && Reads(q, TakeBody(n), t) && Reads(t, BodyDone, u)
  {
    hide Encode, FromLE32;
    Whole(payload);
  }

  /** One sendable payload goes all the way. */
  lemma OneDelivered(steps: seq<Step>, s: Side, begun: seq<seq<byte>>, payload: seq<byte>) returns (more: seq<Step>)
    requires Reaches(steps, Joined(s, UP, Carry(begun, [], Idle, |begun|, Concat(begun)))) && Sendable(payload)
    ensures Reaches(more, Joined(s, UP, Carry(begun + [payload], [], Idle, |begun| + 1, Concat(begun + [payload]))))
  {
    hide Reaches, Carry, Joined, Holding, Concat, Encode, LE32, FromLE32;
    var all, r, n := begun + [payload], Other(s), |payload|;
    FrameBegins(steps, s, begun, payload, false);
    more := steps + [Step(s, BeginWrite(payload))];
    FrameSent(more, s, begun, payload, false);
    more := more + [Step(s, Push(4 + n))] + [Step(s, EndWrite)];
    HeaderTaken(more, s, UP, all, payload, n, |begun|, Concat(begun));
    more := more + [Step(r, BeginRead(n))] + [Step(r, TakeHeader(4))];
    ShortHeader(n);
    BodyTaken(more, s, UP, all, payload, LE32(n), |begun|, Concat(begun));
    more := more + [Step(r, HeaderDone)] + [Step(r, TakeBody(n))] + [Step(r, BodyDone)];
    ConcatSnoc(begun, payload);
  }

  lemma {:induction false} NoCallsNoDiscipline(steps: seq<Step>)
    requires Run(steps).Some? && NoCalls(steps)
    ensures DisciplinedRun(steps)
  {
    if steps != [] {
      hide Apply;
      NoCallsNoDiscipline(steps[..|steps| - 1]);
    }
  }

  lemma Greeted(s: Side) returns (steps: seq<Step>)
    ensures Reaches(steps, Joined(s, UP, Carry([], [], Idle, 0, Concat([]))))
  {
    steps := Handshake();
    NoCallsNoDiscipline(steps);
    hide Run, DisciplinedRun, NoCalls;
    assert Encode([]) == [] && Concat<byte>([]) == [] && RDY + [] == RDY;
    assert Carry([], [], Idle, 0, []) == OPEN;
  }

  lemma {:induction false} AllDelivered(s: Side, payloads: seq<seq<byte>>) returns (steps: seq<Step>)
    requires forall p :: p in payloads ==> Sendable(p)
    ensures Reaches(steps, Joined(s, UP, Carry(payloads, [], Idle, |payloads|, Concat(payloads))))
  {
    hide Reaches, Carry, Joined, Concat;
    if payloads == [] {
      steps := Greeted(s);
    } else {
      var front, last := payloads[..|payloads| - 1], payloads[|payloads| - 1];
      steps := AllDelivered(s, front);
      assert payloads == front + [last] && Sendable(last);
      steps := OneDelivered(steps, s, front, last);
    }
  }

  /** The close frame goes out and the peer takes its header. */
  lemma CloseTaken(steps: seq<Step>, s: Side, payloads: seq<seq<byte>>) returns (more: seq<Step>)
    requires Reaches(steps, Joined(s, UP, Carry(payloads, [], Idle, |payloads|, Concat(payloads))))
    ensures var p := Carry(payloads + [[]], [], Header(1, LE32(0)), |payloads|, Concat(payloads));
            Reaches(more, Joined(s, Done(true), p))
  {
    hide Reaches, Carry, Joined, Holding, Concat, Encode, LE32, FromLE32;
    FrameBegins(steps, s, payloads, [], true);
    more := steps + [Step(s, BeginCloseWrite)];
    FrameSent(more, s, payloads, [], true);
    more := more + [Step(s, Push(4))] + [Step(s, EndWrite)];
    HeaderTaken(more, s, Done(true), payloads + [[]], [], 1, |payloads|, Concat(payloads));
    more := more + [Step(Other(s), BeginRead(1))] + [Step(Other(s), TakeHeader(4))];
  }

  lemma CloseHeard(steps: seq<Step>, s: Side, begun: seq<seq<byte>>, h: seq<byte>, taken: nat, delivered: seq<byte>)
    requires |h| == 4 && FromLE32(h) == 0
    requires Reaches(steps, Joined(s, Done(true), Carry(begun, [], Header(1, h), taken, delivered)))
    ensures Reaches(steps + [Step(Other(s), HeaderDone)],
                    Joined(s, Done(true), Carry(begun, [], Idle, taken + 1, delivered).(eof := true)))
  {
    hide Reaches, Joined, Encode, FromLE32;
    var p := Carry(begun, [], Header(1, h), taken, delivered);
    ReaderStep(steps, s, Done(true), p, HeaderDone, Carry(begun, [], Idle, taken + 1, delivered).(eof := true));
  }

  /**
   Whichever side writes and whatever sendable payloads it writes before it closes its write side, some
   schedule on an uncut transport delivers exactly their bytes to the peer and then end of file.
   */
  lemma Delivers(s: Side, payloads: seq<seq<byte>>) returns (steps: seq<Step>)
    requires forall p :: p in payloads ==> Sendable(p)
    ensures DisciplinedRun(steps) && Run(steps).Some? && PayloadsBy(steps, s) == payloads
    ensures var p := ViewOf(Run(steps).value, Other(s)).inn; p.eof && p.delivered == Concat(payloads) && !p.cut
  {
    steps := AllSaid(s, payloads);
    var p := Carry(payloads + [[]], [], Idle, |payloads| + 1, Concat(payloads)).(eof := true);
    JoinedViews(s, p);
    hide Run, DisciplinedRun, PayloadsBy, CloseSent, Did, Encode, Concat, Joined;
    ScheduleDecides(steps, s);
    CloseIsClosing(steps, s);
    SameFront(PayloadsBy(steps, s), payloads);
  }

  lemma AllSaid(s: Side, payloads: seq<seq<byte>>) returns (steps: seq<Step>)
    requires forall p :: p in payloads ==> Sendable(p)
    ensures Reaches(steps, Joined(s, Done(true),
                                  Carry(payloads + [[]], [], Idle, |payloads| + 1, Concat(payloads)).(eof := true)))
  {
    hide Reaches, Joined, Carry, Encode, Concat, LE32, FromLE32;
    steps := AllDelivered(s, payloads);
    steps := CloseTaken(steps, s, payloads);
    ShortHeader(0);
    CloseHeard(steps, s, payloads + [[]], LE32(0), |payloads|, Concat(payloads));
    steps := steps + [Step(Other(s), HeaderDone)];
  }

  lemma JoinedViews(s: Side, p: Pipe)
    ensures ViewOf(Joined(s, Done(true), p), s) == View(Done(true), p, OPEN)
    ensures ViewOf(Joined(s, Done(true), p), Other(s)) == View(UP, OPEN, p)
  {
  }

  lemma SameFront<T>(a: seq<seq<T>>, b: seq<seq<T>>)
    ensures a + [[]] == b + [[]] ==> a == b
  {
    assert (a + [[]])[..|a|] == a && (b + [[]])[..|b|] == b;
  }

  /** The transport may take and hand over fragments of any size: in every reachable state any part of what
      a side still holds can go out next, and any part of what is under way can come in next, as far as the
      Read that waits for it wants it. */
  lemma AnyFragment(steps: seq<Step>, s: Side, k: nat)
    requires Run(steps).Some? && k > 0
    ensures var v := ViewOf(Run(steps).value, s);
            && (k <= |v.out.pend| ==> Run(steps + [Step(s, Push(k))]).Some?)
            && (v.inn.reading.Header? && k <= |v.inn.chan| && k + |v.inn.reading.got| <= 4 ==>
                  Run(steps + [Step(s, TakeHeader(k))]).Some?)
            && (v.inn.reading.Body? && k <= |v.inn.chan| && k <= v.inn.reading.need ==>
                  Run(steps + [Step(s, TakeBody(k))]).Some?)
  {
    var l := Run(steps).value;
    forall e | Enabled(s, ViewOf(l, s), e)
      ensures Run(steps + [Step(s, e)]).Some?
    {
      hide Enabled, Local;
      Extend(steps, l, s, e, Update(l, s, Local(s, ViewOf(l, s), e)));
    }
    hide Run, Local;
  }

  // ---- closing comes to an end ----

  /** A side whose Close has been called has its handshake behind it. */
  lemma {:induction false} ClosedAfterHandshake(steps: seq<Step>, s: Side)
    requires Run(steps).Some?
    ensures var v := ViewOf(Run(steps).value, s); !v.me.closer.NotCalled? ==> !v.inn.reading.Greeting?
  {
    if steps != [] {
      var before, st := steps[..|steps| - 1], steps[|steps| - 1];
      ClosedAfterHandshake(before, s);
      AnyRunKeeps(before);
      var l := Run(before).value;
      BaseParts(l, st.side);
      hide Base, Local, Enabled, SenderOk, ReceiverOk, CloserOk, WireOk, StartedOk;
      if st.side == s {
        TurnMoves(s, ViewOf(l, s), st.event);
        CloserMoves(s, ViewOf(l, s), st.event);
        CallNeedsHandshake(s, ViewOf(l, s), st.event);
      } else {
        OutReading(st.side, ViewOf(l, st.side), st.event);
      }
    }
  }

  lemma CallNeedsHandshake(s: Side, v: View, e: Event)
    requires Enabled(s, v, e)
    ensures Calling(e) ==> !v.inn.reading.Greeting?
  {
  }

  function NextClosing(v: View, s: Side): Step {
    match v.me.closer
    case WantRead => (
      match v.inn.reading
      case Header(_, got) =>
        if |got| == 4 then Step(s, HeaderDone)
        else if v.inn.cut && v.inn.chan == [] then Step(s, FailRead) else Step(Other(s), Cut(0))
      case Body(need, _) =>
        if need == 0 then Step(s, BodyDone)
        else if v.inn.cut && v.inn.chan == [] then Step(s, FailRead) else Step(Other(s), Cut(0))
      case _ => Step(s, CloserReads)
    )
    case WantTransport => Step(s, CloserTransport(0, 0))
    case _ =>
      if v.me.lock.Free? then Step(s, CloserWrites)
      else if v.out.pend != [] then Step(s, Push(|v.out.pend|)) else Step(s, EndWrite)
  }

  function CloserRank(c: Closer): nat {
    match c
    case NotCalled => 6
    case WantWrite => 5
    case InWrite => 4
    case WantRead => 3
    case WantTransport => 2
    case Finished => 0
  }

  /** What stands between the closer and its next stage. */
  function Obstacles(v: View): nat {
    if v.me.closer.WantRead? then
      var lost := v.inn.cut && v.inn.chan == [];
      match v.inn.reading
      case Header(_, got) => if |got| == 4 then 4 else if lost then 5 else 6
      case Body(need, _) => if need == 0 then 1 else if lost then 2 else 3
      case _ => 0
    else (if v.me.lock.Held? then 2 else 0) + (if v.out.pend != [] then 1 else 0)
  }

  predicate Nearer(w: View, v: View) {
    || CloserRank(w.me.closer) < CloserRank(v.me.closer)
    || (CloserRank(w.me.closer) == CloserRank(v.me.closer) && Obstacles(w) < Obstacles(v))
  }

  /** Before it has the read lock: the write lock comes free, the close frame goes out. */
  lemma ClosingWriteSide(v: View, s: Side)
    requires SenderOk(v.me, v.out) && CloserOk(v.me) && (v.me.closer.WantWrite? || v.me.closer.InWrite?)
    ensures var e := NextClosing(v, s).event; Enabled(s, v, e) && Nearer(Local(s, v, e), v)
  {
    hide Frame;
    match NextClosing(v, s).event
    case CloserWrites =>
    case Push(_) =>
    case EndWrite =>
  }

  /** A Read that is under way ends. */
  lemma ClosingReadSide(v: View, s: Side)
    requires v.me.closer.WantRead? && NextClosing(v, s).side == s
    requires !v.inn.reading.Greeting? && (v.inn.reading.Header? ==> |v.inn.reading.got| <= 4)
    ensures var e := NextClosing(v, s).event; Enabled(s, v, e) && Nearer(Local(s, v, e), v)
  {
    hide Frame, FromLE32;
    match NextClosing(v, s).event
    case CloserReads =>
    case HeaderDone =>
    case BodyDone =>
    case FailRead =>
  }

  lemma OwnClosing(v: View, s: Side)
    requires SenderOk(v.me, v.out) && CloserOk(v.me) && !v.me.closer.NotCalled? && !v.me.closer.Finished?
    requires !v.inn.reading.Greeting? && (v.inn.reading.Header? ==> |v.inn.reading.got| <= 4)
    requires NextClosing(v, s).side == s
    ensures var e := NextClosing(v, s).event; Enabled(s, v, e) && Nearer(Local(s, v, e), v)
  {
    if v.me.closer.WantRead? {
      hide Local, Enabled, NextClosing, Nearer, SenderOk, CloserOk;
      ClosingReadSide(v, s);
    } else if v.me.closer.WantTransport? {
      hide SenderOk, CloserOk, Sever, Obstacles;
    } else {
      hide Local, Enabled, NextClosing, Nearer;
      ClosingWriteSide(v, s);
    }
  }

  lemma OtherClosing(v: View, u: View, s: Side)
    requires NextClosing(v, s).side != s && u.out == v.inn && u.inn == v.out && v.me.closer.WantRead?
    ensures NextClosing(v, s) == Step(Other(s), Cut(0)) && Enabled(Other(s), u, Cut(0))
    ensures var w := Local(Other(s), u, Cut(0)); Nearer(View(v.me, w.inn, w.out), v) && w.me == u.me
  {
  }

  /** A header in hand is never longer than four bytes. */
  lemma {:induction false} HeaderShort(steps: seq<Step>, s: Side)
    requires Run(steps).Some?
    ensures var p := ViewOf(Run(steps).value, s).inn; p.reading.Header? ==> |p.reading.got| <= 4
  {
    if steps != [] {
      var before, st := steps[..|steps| - 1], steps[|steps| - 1];
      HeaderShort(before, s);
      var l := Run(before).value;
      hide Local, Enabled;
      if st.side == s {
        HeaderShortStep(s, ViewOf(l, s), st.event);
      } else {
        OutReading(st.side, ViewOf(l, st.side), st.event);
      }
    }
  }

  lemma HeaderShortStep(s: Side, v: View, e: Event)
    requires Enabled(s, v, e) && (v.inn.reading.Header? ==> |v.inn.reading.got| <= 4)
    ensures var p := Local(s, v, e).inn; p.reading.Header? ==> |p.reading.got| <= 4
  {
    hide Frame, FromLE32, Min, Take, Abandon, Start;
    match e
    case TakeHeader(_) =>
    case HeaderDone =>
    case BeginRead(_) =>
    case TakeBody(_) =>
    case _ =>
  }

  lemma ClosingStep(steps: seq<Step>, s: Side)
    requires Run(steps).Some?
    requires var c := ViewOf(Run(steps).value, s).me.closer; !c.NotCalled? && !c.Finished?
    ensures var st := NextClosing(ViewOf(Run(steps).value, s), s);
            var t := Run(steps + [st]);
            && t.Some? && Nearer(ViewOf(t.value, s), ViewOf(Run(steps).value, s))
            && !ViewOf(t.value, s).me.closer.NotCalled?
  {
    AnyRunKeeps(steps);
    ClosedAfterHandshake(steps, s);
    HeaderShort(steps, s);
    var l := Run(steps).value;
    BaseParts(l, s);
    var v, st := ViewOf(l, s), NextClosing(ViewOf(l, s), s);
    assert (steps + [st])[..|steps|] == steps;
    hide Base, Local, Enabled, SenderOk, ReceiverOk, CloserOk, WireOk, StartedOk, NextClosing, Nearer;
    if st.side == s {
      OwnClosing(v, s);
      CloserMoves(s, v, st.event);
    } else {
      OnlyReadsWait(v, s);
      OtherClosing(v, ViewOf(l, Other(s)), s);
    }
  }

  lemma OnlyReadsWait(v: View, s: Side)
    ensures NextClosing(v, s).side != s ==> v.me.closer.WantRead?
  {
  }

  /**
   From every reachable state in which a side's Close has been called and has not returned, some schedule
   lets it return, whatever Writes and Reads of that side are under way: writers finish, a waiting Read is
   ended by the transport. Then both halves are marked closed and the transport is closed.
   */
  lemma {:induction false} CloseEnds(steps: seq<Step>, s: Side) returns (all: seq<Step>)
    requires Run(steps).Some? && Did(steps, s, Calling)
    ensures steps <= all && Run(all).Some? && Did(all, s, Finishing)
    ensures var me := ViewOf(Run(all).value, s).me; me.closedReads && me.closedWrites && me.transportClosed
    decreases CloserRank(ViewOf(Run(steps).value, s).me.closer), Obstacles(ViewOf(Run(steps).value, s))
  {
    hide PayloadsBy, CloseSent;
    ScheduleDecides(steps, s);
    var v := ViewOf(Run(steps).value, s);
    if v.me.closer.Finished? {
      all := steps;
      AnyRunKeeps(steps);
      BaseParts(Run(steps).value, s);
      FinishedIsClosed(steps, s);
    } else {
      ClosingStep(steps, s);
      var st := NextClosing(v, s);
      var more := steps + [st];
      hide Run, NextClosing, Obstacles, CloserRank;
      ScheduleDecides(more, s);
      all := CloseEnds(more, s);
    }
  }

  lemma FinishedIsClosed(steps: seq<Step>, s: Side)
    requires Run(steps).Some? && Did(steps, s, Finishing)
    ensures var me := ViewOf(Run(steps).value, s).me; me.closedReads && me.closedWrites && me.transportClosed
  {
    hide PayloadsBy, CloseSent, Run;
    ScheduleDecides(steps, s);
    AnyRunKeeps(steps);
    BaseParts(Run(steps).value, s);
    hide SenderOk, ReceiverOk, WireOk, StartedOk, Base;
    var i :| 0 <= i < |steps| && steps[i].side == s && Finishing(steps[i].event);
    assert ClosingTransport(steps[i].event);
  }

  /** closeConn's wait is over exactly when both halves are closed and no closing write is under way. */
  lemma ReaperWaits(steps: seq<Step>, s: Side)
    requires Run(steps).Some?
    ensures var v := ViewOf(Run(steps).value, s);
            Enabled(s, v, Reaper(0, 0)) <==>
              && Did(steps, s, ClosingReads) && Did(steps, s, ClosingWrites)
              && !(v.me.lock.Held? && v.me.lock.closing)
  {
    hide PayloadsBy, CloseSent, Run, Did;
    ScheduleDecides(steps, s);
    AnyRunKeeps(steps);
    BaseParts(Run(steps).value, s);
  }
}
