/**
 The qemu link against its schedule: what the callers did, read off the sequence of steps alone, decides
 what is on the wire, which flags are set, what a reader gets and when it gets end of file.
 */
module QemuLinkSchedule {
  import opened Bytes
  import opened Framing
  import opened QemuLink
  import opened QemuLinkProof

  // ---- what a schedule says ----

  /** The side has taken a step of this kind. */
  predicate Did(steps: seq<Step>, s: Side, kind: Event -> bool) {
    exists i :: 0 <= i < |steps| && steps[i].side == s && kind(steps[i].event)
  }

  predicate ClosingWrites(e: Event) {
    e.BeginCloseWrite? || e.CloserWrites?
  }

  predicate ClosingReads(e: Event) {
    e.CloseRead? || e.CloserReads?
  }

  predicate ClosingTransport(e: Event) {
    e.CloserTransport? || e.Reaper?
  }

  predicate Failing(e: Event) {
    e.FailWrite?
  }

  /** No Write after a step like this puts anything on the wire. */
  predicate EndingWrites(e: Event) {
    ClosingWrites(e) || Failing(e)
  }

  predicate Calling(e: Event) {
    e.CallClose?
  }

  predicate Finishing(e: Event) {
    e.CloserTransport?
  }

  predicate CloserWriting(e: Event) {
    e.CloserWrites?
  }

  predicate CloserReading(e: Event) {
    e.CloserReads?
  }

  predicate Cutting(e: Event) {
    e.Cut? || ClosingTransport(e)
  }

  predicate FailingRead(e: Event) {
    e.FailRead?
  }

  predicate Greeted(e: Event) {
    e.HelloSent?
  }

  /** The payloads of the side's Writes before it closes its write side or a write of it fails. */
  function PayloadsBy(steps: seq<Step>, s: Side): seq<seq<byte>> {
    if steps == [] then []
    else
      var before, st := steps[..|steps| - 1], steps[|steps| - 1];
      if st.side == s && st.event.BeginWrite? && !Did(before, s, EndingWrites)
      then PayloadsBy(before, s) + [st.event.payload] else PayloadsBy(before, s)
  }

  /** The bytes of those Writes. */
  function WrittenBy(steps: seq<Step>, s: Side): seq<byte> {
    Concat(PayloadsBy(steps, s))
  }

  /** The side closes its write side before any write of it fails. */
  predicate CloseSent(steps: seq<Step>, s: Side) {
    steps != [] &&
    (var before, st := steps[..|steps| - 1], steps[|steps| - 1];
     CloseSent(before, s) || (st.side == s && ClosingWrites(st.event) && !Did(before, s, EndingWrites)))
  }

  function Other(s: Side): Side {
    if s.Host? then Guest else Host
  }

  lemma DidSnoc(steps: seq<Step>, s: Side, kind: Event -> bool)
    requires steps != []
    ensures Did(steps, s, kind) <==>
            || Did(steps[..|steps| - 1], s, kind)
            || (steps[|steps| - 1].side == s && kind(steps[|steps| - 1].event))
  {
    var before := steps[..|steps| - 1];
    if Did(before, s, kind) {
      var i :| 0 <= i < |before| && before[i].side == s && kind(before[i].event);
      assert steps[i] == before[i];
    }
    if Did(steps, s, kind) {
      var i :| 0 <= i < |steps| && steps[i].side == s && kind(steps[i].event);
      assert i < |before| ==> before[i] == steps[i];
    }
  }

  // ---- what a step does ----

  lemma WriteFlagsMove(s: Side, v: View, e: Event)
    requires Enabled(s, v, e)
    ensures var w := Local(s, v, e).me;
            && (w.closedWrites <==> v.me.closedWrites || ClosingWrites(e))
            && (w.broken <==> v.me.broken || Failing(e))
  {
    hide Enabled, Frame, FromLE32, Min, Take, Hear, GetHeader, UseHeader, GetBody, EndBody, Sever, Abandon, Start;
    hide Ask, Fail;
    match e
    case BeginWrite(_) =>
    case BeginCloseWrite =>
    case CloserWrites =>
    case EndWrite =>
    case FailWrite =>
    case CloserTransport(_, _) =>
    case Reaper(_, _) =>
    case _ =>
  }

  lemma ReadFlagsMove(s: Side, v: View, e: Event)
    requires Enabled(s, v, e)
    ensures var w := Local(s, v, e).me;
            && (w.closedReads <==> v.me.closedReads || ClosingReads(e))
            && (w.hello.Said? <==> v.me.hello.Said? || Greeted(e))
  {
    hide Frame, FromLE32, Min, Take, Hear, GetHeader, UseHeader, GetBody, EndBody, Sever, Abandon, Start, Ask, Fail;
    match e
    case BeginWrite(_) =>
    case BeginCloseWrite =>
    case CloserWrites =>
    case EndWrite =>
    case FailWrite =>
    case CloserTransport(_, _) =>
    case Reaper(_, _) =>
    case _ =>
  }

  lemma CloserMoves(s: Side, v: View, e: Event)
    requires Enabled(s, v, e) && CloserOk(v.me)
    ensures var w := Local(s, v, e).me;
            && (w.closer.NotCalled? <==> v.me.closer.NotCalled? && !Calling(e))
            && (w.closer.NotCalled? || w.closer.WantWrite? <==>
                  (v.me.closer.NotCalled? || v.me.closer.WantWrite?) && !CloserWriting(e))
            && (w.closer.WantTransport? || w.closer.Finished? <==>
                  v.me.closer.WantTransport? || v.me.closer.Finished? || CloserReading(e))
            && (w.closer.Finished? <==> v.me.closer.Finished? || Finishing(e))
            && (w.transportClosed <==> v.me.transportClosed || ClosingTransport(e))
  {
    hide Frame, FromLE32, Min, Take, Hear, GetHeader, UseHeader, GetBody, EndBody, Sever, Abandon, Start, Ask, Fail;
    match e
    case BeginWrite(_) =>
    case BeginCloseWrite =>
    case CloserWrites =>
    case EndWrite =>
    case FailWrite =>
    case CloserTransport(_, _) =>
    case Reaper(_, _) =>
    case _ =>
  }

  lemma FramesStarted(s: Side, v: View, e: Event)
    requires Enabled(s, v, e)
    ensures Local(s, v, e).out.begun ==
            v.out.begun +
            (if v.me.closedWrites || v.me.broken then []
             else if e.BeginWrite? then [e.payload]
             else if ClosingWrites(e) then [[]] else [])
  {
    hide Enabled, Frame, FromLE32, Min, Hear, GetHeader, UseHeader, GetBody, EndBody, Ask, Fail;
    assert v.out.begun + [] == v.out.begun;
    match e
    case BeginWrite(_) =>
    case BeginCloseWrite =>
    case CloserWrites =>
    case EndWrite =>
    case FailWrite =>
    case CloserTransport(_, _) =>
    case Reaper(_, _) =>
    case _ =>
  }

  lemma OutMoves(s: Side, v: View, e: Event)
    requires Enabled(s, v, e)
    ensures var w := Local(s, v, e).out;
            (w.cut <==> v.out.cut || Cutting(e)) && w.failed == v.out.failed
  {
    hide Enabled, Frame, FromLE32, Min, Hear, GetHeader, UseHeader, GetBody, EndBody, Ask, Fail;
    match e
    case BeginWrite(_) =>
    case BeginCloseWrite =>
    case CloserWrites =>
    case EndWrite =>
    case FailWrite =>
    case CloserTransport(_, _) =>
    case Reaper(_, _) =>
    case _ =>
  }

  lemma InMoves(s: Side, v: View, e: Event)
    requires Enabled(s, v, e)
    ensures var w := Local(s, v, e).inn;
            && w.begun == v.inn.begun
            && (w.cut <==> v.inn.cut || ClosingTransport(e))
            && (w.failed <==> v.inn.failed || FailingRead(e))
  {
    hide Enabled, Frame, FromLE32, Min, Take, Abandon, Start;
    InSame(s, v, e);
    match e
    case BeginWrite(_) =>
    case BeginCloseWrite =>
    case CloserWrites =>
    case EndWrite =>
    case FailWrite =>
    case CloserTransport(_, _) =>
    case Reaper(_, _) =>
    case _ =>
  }

  // ---- the schedule decides ----

  /** One side's flags and what it has put on the wire, as the schedule says. */
  predicate SideFollows(steps: seq<Step>, s: Side, v: View) {
    && (v.me.closedWrites <==> Did(steps, s, ClosingWrites))
    && (v.me.closedReads <==> Did(steps, s, ClosingReads))
    && (v.me.broken <==> Did(steps, s, Failing))
    && (v.me.closer.NotCalled? <==> !Did(steps, s, Calling))
    && (v.me.closer.NotCalled? || v.me.closer.WantWrite? <==> !Did(steps, s, CloserWriting))
    && (v.me.closer.WantTransport? || v.me.closer.Finished? <==> Did(steps, s, CloserReading))
    && (v.me.closer.Finished? <==> Did(steps, s, Finishing))
    && (v.me.transportClosed <==> Did(steps, s, ClosingTransport))
    && (v.me.hello.Said? <==> Did(steps, s, Greeted))
    && v.out.begun == PayloadsBy(steps, s) + (if CloseSent(steps, s) then [[]] else [])
    && (v.out.cut <==> Did(steps, s, Cutting) || Did(steps, Other(s), ClosingTransport))
    && (v.inn.failed <==> Did(steps, s, FailingRead))
  }

  lemma EndingIsBoth(steps: seq<Step>, s: Side)
    ensures Did(steps, s, EndingWrites) <==> Did(steps, s, ClosingWrites) || Did(steps, s, Failing)
  {
  }

  /** The side's own step. */
  lemma OwnStep(steps: seq<Step>, v: View)
    requires steps != []
    requires var st := steps[|steps| - 1];
             SideFollows(steps[..|steps| - 1], st.side, v) && Enabled(st.side, v, st.event) && CloserOk(v.me)
    ensures var st := steps[|steps| - 1]; SideFollows(steps, st.side, Local(st.side, v, st.event))
  {
    var before, st := steps[..|steps| - 1], steps[|steps| - 1];
    hide Local, Enabled, CloserOk, Did;
    WriteFlagsMove(st.side, v, st.event);
    ReadFlagsMove(st.side, v, st.event);
    CloserMoves(st.side, v, st.event);
    FramesStarted(st.side, v, st.event);
    OutMoves(st.side, v, st.event);
    InMoves(st.side, v, st.event);
    DidSnoc(steps, st.side, ClosingWrites);
    DidSnoc(steps, st.side, ClosingReads);
    DidSnoc(steps, st.side, Failing);
    DidSnoc(steps, st.side, Calling);
    DidSnoc(steps, st.side, Finishing);
    DidSnoc(steps, st.side, CloserWriting);
    DidSnoc(steps, st.side, CloserReading);
    DidSnoc(steps, st.side, ClosingTransport);
    DidSnoc(steps, st.side, Greeted);
    DidSnoc(steps, st.side, Cutting);
    DidSnoc(steps, st.side, FailingRead);
    DidSnoc(steps, Other(st.side), ClosingTransport);
    EndingIsBoth(before, st.side);
    CloseIsClosing(before, st.side);
  }

  lemma {:induction false} CloseIsClosing(steps: seq<Step>, s: Side)
    ensures CloseSent(steps, s) ==> Did(steps, s, ClosingWrites)
    ensures Did(steps, s, ClosingWrites) && !Did(steps, s, Failing) ==> CloseSent(steps, s)
  {
    if steps != [] {
      hide Did;
      DidSnoc(steps, s, ClosingWrites);
      DidSnoc(steps, s, Failing);
      EndingIsBoth(steps[..|steps| - 1], s);
      CloseIsClosing(steps[..|steps| - 1], s);
    } else {
    }
  }

  /** A step of the other side. */
  lemma OtherStep(steps: seq<Step>, v: View, mine: View, after: View)
    requires steps != []
    requires var st := steps[|steps| - 1];
             && SideFollows(steps[..|steps| - 1], Other(st.side), mine) && Enabled(st.side, v, st.event)
             && v.out == mine.inn && v.inn == mine.out
             && after == View(mine.me, Local(st.side, v, st.event).inn, Local(st.side, v, st.event).out)
    ensures SideFollows(steps, Other(steps[|steps| - 1].side), after)
  {
    var st := steps[|steps| - 1];
    var s := Other(st.side);
    hide Local, Enabled, Did;
    OutMoves(st.side, v, st.event);
    InMoves(st.side, v, st.event);
    DidSnoc(steps, s, ClosingWrites);
    DidSnoc(steps, s, ClosingReads);
    DidSnoc(steps, s, Failing);
    DidSnoc(steps, s, Calling);
    DidSnoc(steps, s, Finishing);
    DidSnoc(steps, s, CloserWriting);
    DidSnoc(steps, s, CloserReading);
    DidSnoc(steps, s, ClosingTransport);
    DidSnoc(steps, s, Greeted);
    DidSnoc(steps, s, Cutting);
    DidSnoc(steps, s, FailingRead);
    DidSnoc(steps, st.side, ClosingTransport);
  }

  /**
   In every schedule, whatever the callers do: the frames a side has put on the wire are the payloads of
   its Writes before it closed its write side or a write failed, in order, and then the close frame if it
   closed first; and its flags are those its own steps set, once and for all.
   */
  lemma {:induction false} ScheduleDecides(steps: seq<Step>, s: Side)
    requires Run(steps).Some?
    ensures SideFollows(steps, s, ViewOf(Run(steps).value, s))
  {
    if steps != [] {
      var before, st := steps[..|steps| - 1], steps[|steps| - 1];
      ScheduleDecides(before, s);
      AnyRunKeeps(before);
      var l := Run(before).value;
      BaseParts(l, st.side);
      hide SideFollows, Base, Local, Enabled, SenderOk, ReceiverOk, CloserOk, WireOk, StartedOk;
      if st.side == s {
        OwnStep(steps, ViewOf(l, s));
      } else {
        assert st.side == Other(s) && s == Other(st.side);
        OtherStep(steps, ViewOf(l, st.side), ViewOf(l, s), ViewOf(Run(steps).value, s));
      }
    }
  }

  // ---- the handshake ----

  /** The host speaks before it listens, the guest listens before it speaks. */
  predicate InTurn(l: Link) {
    && (l.up.reading != Greeting([]) ==> l.host.hello.Said?)
    && (!l.guest.hello.Unsaid? ==> !l.down.reading.Greeting?)
  }

  /** Only HearHello takes the first byte of a greeting, and only SayHello speaks. */
  lemma TurnMoves(s: Side, v: View, e: Event)
    requires Enabled(s, v, e)
    ensures var w := Local(s, v, e);
            && (v.inn.reading == Greeting([]) && w.inn.reading != Greeting([]) ==> e.HearHello?)
            && (!v.inn.reading.Greeting? ==> !w.inn.reading.Greeting?)
            && (v.me.hello.Unsaid? && !w.me.hello.Unsaid? ==> e.SayHello?)
  {
    hide Frame, FromLE32, Min, Take, Abandon, Start;
    match e
    case HearHello(_) =>
    case CheckHello =>
    case SayHello =>
    case HelloSent =>
    case _ =>
  }

  lemma OutReading(s: Side, v: View, e: Event)
    requires Enabled(s, v, e)
    ensures Local(s, v, e).out.reading == v.out.reading
  {
    hide Enabled, Frame, FromLE32, Min, Hear, GetHeader, UseHeader, GetBody, EndBody, Ask, Fail;
    match e
    case BeginWrite(_) =>
    case Push(_) =>
    case _ =>
  }

  lemma TurnTaken(s: Side, v: View, e: Event)
    requires Enabled(s, v, e)
    ensures e.HearHello? && s.Host? ==> v.me.hello.Said?
    ensures e.SayHello? && s.Guest? ==> !v.inn.reading.Greeting?
  {
  }

  lemma InTurnStep(l: Link, st: Step)
    requires InTurn(l) && Apply(l, st).Some?
    ensures InTurn(Apply(l, st).value)
  {
    hide Local, Enabled;
    var v := ViewOf(l, st.side);
    TurnMoves(st.side, v, st.event);
    OutReading(st.side, v, st.event);
    TurnTaken(st.side, v, st.event);
    ReadFlagsMove(st.side, v, st.event);
  }

  /** In every schedule the host has sent its greeting before it reads any of the guest's, and the guest has
      read the host's greeting before it sends its own. */
  lemma {:induction false} HandshakeInTurn(steps: seq<Step>)
    requires Run(steps).Some?
    ensures var l := Run(steps).value;
            && (l.up.reading != Greeting([]) ==> Did(steps, Host, Greeted))
            && (l.up.said ==> !l.down.reading.Greeting?)
  {
    TurnsTaken(steps);
    ScheduleDecides(steps, Host);
    AnyRunKeeps(steps);
    BaseParts(Run(steps).value, Guest);
  }

  lemma {:induction false} TurnsTaken(steps: seq<Step>)
    requires Run(steps).Some?
    ensures InTurn(Run(steps).value)
  {
    if steps != [] {
      hide InTurn, Apply;
      TurnsTaken(steps[..|steps| - 1]);
      InTurnStep(Run(steps[..|steps| - 1]).value, steps[|steps| - 1]);
    }
  }

  /** Whatever the other end has sent: a side that has heard three bytes goes on exactly when they are
      "rdy", and otherwise it serves no call on that transport. */
  lemma StrangerRefused(s: Side, v: View, n: nat, payload: seq<byte>)
    requires Enabled(s, v, CheckHello)
    ensures var w := Local(s, v, CheckHello);
            && (w.me.refused <==> v.inn.reading.got != [0x72, 0x64, 0x79])
            && (w.me.refused <==> w.inn.reading.Greeting?)
            && (w.me.refused ==> !Enabled(s, w, BeginRead(n)) && !Enabled(s, w, BeginWrite(payload)))
  {
  }

  /** A Read that fails leaves the count of the current frame as it was; only a Read that returns bytes
      changes it. */
  lemma LeftStays(s: Side, v: View, e: Event)
    requires Enabled(s, v, e)
    ensures !e.BodyDone? ==> Local(s, v, e).inn.left == v.inn.left
    ensures Local(s, v, e).out.left == v.out.left
  {
    hide Frame, FromLE32, Min;
  }

  // ---- byte streams ----

  lemma WrittenSame(steps: seq<Step>, s: Side)
    requires Run(steps).Some?
    ensures Written(ViewOf(Run(steps).value, s).inn) == WrittenBy(steps, Other(s))
    ensures ViewOf(Run(steps).value, Other(s)).out == ViewOf(Run(steps).value, s).inn
  {
    hide Run, PayloadsBy, CloseSent, Did;
    ScheduleDecides(steps, Other(s));
    var p := PayloadsBy(steps, Other(s));
    hide SideFollows;
    assert Written(ViewOf(Run(steps).value, s).inn) == WrittenBy(steps, Other(s)) by {
      FollowsWritten(steps, Other(s), ViewOf(Run(steps).value, Other(s)));
    }
  }

  lemma FollowsWritten(steps: seq<Step>, s: Side, v: View)
    requires SideFollows(steps, s, v)
    ensures Written(v.out) == WrittenBy(steps, s)
    ensures v.me.closedWrites <==> Did(steps, s, ClosingWrites)
  {
    hide Concat, PayloadsBy, CloseSent, Did;
    var p := PayloadsBy(steps, s);
    ConcatSnoc(p, []);
    assert p + [] == p && Concat(p) + [] == Concat(p);
  }

  /**
   The link refines two plain byte streams. In every schedule, in each direction, the bytes put into Read
   buffers are a prefix of the bytes the peer's Writes were given, whatever the fragmentation, the buffer
   sizes and the moment the transport dies; and once a Read has reported the zero-length end of file,
   every one of those bytes has been delivered and the peer has closed its write side.
   */
  lemma LinkRefinesStreams(steps: seq<Step>, s: Side)
    requires DisciplinedRun(steps) && Run(steps).Some?
    ensures var p := ViewOf(Run(steps).value, s).inn;
            && p.delivered <= WrittenBy(steps, Other(s))
            && (p.eof ==> p.delivered == WrittenBy(steps, Other(s)) && Did(steps, Other(s), ClosingWrites))
  {
    hide StreamOk, Base, Run, DisciplinedRun, Concat, PayloadsBy, CloseSent, Did;
    RunKeeps(steps);
    DeliveredPrefix(ViewOf(Run(steps).value, s).inn);
    WrittenSame(steps, s);
    ScheduleDecides(steps, Other(s));
  }

  /**
   Nothing is lost: in every schedule, until a Read has failed on a cut transport, the bytes delivered
   and the reading of everything still ahead of the receiver are exactly the bytes the peer's Writes were
   given. On a transport that nobody has cut or closed, all of that is in the receiver's hand, under way
   or with the sender.
   */
  lemma LinkConserves(steps: seq<Step>, s: Side)
    requires DisciplinedRun(steps) && Run(steps).Some?
    ensures var p := ViewOf(Run(steps).value, s).inn;
            && (!p.reading.Greeting? && !Did(steps, s, FailingRead) ==>
                  p.delivered + Decode(Due(p), Ahead(p)) == WrittenBy(steps, Other(s)))
            && (!Did(steps, Other(s), Cutting) && !Did(steps, s, ClosingTransport) ==>
                  !Did(steps, s, FailingRead) && Ahead(p) == InHand(p) + (p.chan + p.pend))
  {
    hide Base, Run, DisciplinedRun, Concat, Encode, Decode, Fits, PayloadsBy, CloseSent, Did;
    RunKeeps(steps);
    WrittenSame(steps, s);
    ScheduleDecides(steps, s);
    ScheduleDecides(steps, Other(s));
    assert Other(Other(s)) == s;
    var p := ViewOf(Run(steps).value, s).inn;
    if !p.reading.Greeting? && !p.failed {
      FitsDecodes(Ahead(p), Due(p), p.begun[p.taken..], p.delivered, Concat(p.begun));
    }
    if !p.cut {
      assert p.chan + p.lost == p.chan;
    }
  }

  /**
   When a reader is told end of file, in every schedule: a header that has come in completely is the
   close frame exactly when everything the peer's Writes were given has been delivered.
   */
  lemma EofExactly(steps: seq<Step>, s: Side)
    requires DisciplinedRun(steps) && Run(steps).Some?
    ensures var v := ViewOf(Run(steps).value, s);
            Enabled(s, v, HeaderDone) && !Did(steps, s, FailingRead) ==>
              (Local(s, v, HeaderDone).inn.eof <==> v.inn.delivered == WrittenBy(steps, Other(s)))
  {
    hide Base, Run, DisciplinedRun, PayloadsBy, CloseSent, Did;
    RunKeeps(steps);
    WrittenSame(steps, s);
    ScheduleDecides(steps, s);
    var v := ViewOf(Run(steps).value, s);
    if Enabled(s, v, HeaderDone) && !v.inn.failed {
      var peer := if s.Host? then Run(steps).value.guest else Run(steps).value.host;
      HeaderEof(v.inn, peer.closedWrites);
    }
  }

  lemma HeaderEof(p: Pipe, closed: bool)
    requires StreamOk(p) && EofOk(p) && ZeroLast(p.begun, closed)
    requires p.reading.Header? && |p.reading.got| == 4 && !p.failed
    ensures UseHeader(p).eof <==> p.delivered == Written(p)
  {
    hide Fits, Encode, Concat, FromLE32;
    UseHeaderKeeps(p);
    var q := UseHeader(p);
    if FromLE32(p.reading.got) > 0 {
      DueMissing(Ahead(q), Due(q), p.begun[q.taken..], q.delivered, Concat(p.begun));
    }
  }

  lemma DueMissing(ahead: seq<byte>, due: nat, tail: seq<seq<byte>>, delivered: seq<byte>, all: seq<byte>)
    requires Fits(ahead, due, tail, delivered, all) && due > 0
    ensures delivered != all
  {
    assert |delivered + ahead[..due] + Concat(tail)| > |delivered|;
  }

  // ---- one Read ----

  /** Steps that do not begin another Read of this side. */
  predicate SameRead(more: seq<Step>, s: Side) {
    forall i :: 0 <= i < |more| ==> !(more[i].side == s && more[i].event.BeginRead?)
  }

  /** A Read of `size` bytes that began with `start` bytes delivered. */
  predicate Budget(p: Pipe, start: nat, size: nat) {
    && start <= |p.delivered|
    && match p.reading
       case Greeting(_) => false
       case Idle => |p.delivered| - start <= size
       case Header(n, _) => n == size && |p.delivered| == start
       case Body(need, after) =>
         |p.delivered| - start + need <= size && (after > 0 ==> |p.delivered| - start + need == size)
  }

  /** It has come back with no error, and either filled the buffer or used the frame up. */
  predicate Served(p: Pipe, start: nat, size: nat) {
    p.reading.Idle? ==> p.eof || p.failed || |p.delivered| - start == size || p.left == 0
  }

  lemma BudgetKeeps(s: Side, v: View, e: Event, start: nat, size: nat)
    requires Enabled(s, v, e) && !e.BeginRead? && Budget(v.inn, start, size) && Served(v.inn, start, size)
    ensures Budget(Local(s, v, e).inn, start, size) && Served(Local(s, v, e).inn, start, size)
  {
    hide Frame, FromLE32, Take, Abandon, Start;
  }

  lemma BudgetOther(s: Side, v: View, e: Event, start: nat, size: nat)
    requires Enabled(s, v, e) && Budget(v.out, start, size) && Served(v.out, start, size)
    ensures Budget(Local(s, v, e).out, start, size) && Served(Local(s, v, e).out, start, size)
  {
    hide Frame, FromLE32, Hear, GetHeader, UseHeader, GetBody, EndBody, Ask, Fail;
  }

  lemma BudgetStarts(s: Side, v: View, size: nat)
    requires Enabled(s, v, BeginRead(size)) && !v.me.closedReads
    ensures var q := Local(s, v, BeginRead(size)).inn;
            Budget(q, |v.inn.delivered|, size) && Served(q, |v.inn.delivered|, size)
  {
  }

  /**
   A Read never puts more into its buffer than fits; and when it comes back without end of file and
   without error, the buffer is full or the frame is used up. For every state of every schedule after the
   Read began and before the next one of that side.
   */
  lemma {:induction false} ReadFits(steps: seq<Step>, s: Side, size: nat, more: seq<Step>)
    requires Run(steps).Some? && !ViewOf(Run(steps).value, s).me.closedReads
    requires SameRead(more, s) && Run(steps + [Step(s, BeginRead(size))] + more).Some?
    ensures var start := |ViewOf(Run(steps).value, s).inn.delivered|;
            var p := ViewOf(Run(steps + [Step(s, BeginRead(size))] + more).value, s).inn;
            Budget(p, start, size) && Served(p, start, size)
    decreases |more|
  {
    hide Run, Budget, Served, Apply, Local, Enabled;
    var call := steps + [Step(s, BeginRead(size))];
    var all := call + more;
    var start := |ViewOf(Run(steps).value, s).inn.delivered|;
    if more == [] {
      assert all == call;
      BeforeStep(steps, Step(s, BeginRead(size)));
      CallStarts(Run(steps).value, s, size);
    } else {
      var st := more[|more| - 1];
      var before := call + more[..|more| - 1];
      assert all == before + [st];
      BeforeStep(before, st);
      ReadFits(steps, s, size, more[..|more| - 1]);
      BudgetStep(Run(before).value, st, s, start, size);
    }
  }

  lemma CallStarts(l: Link, s: Side, size: nat)
    requires Apply(l, Step(s, BeginRead(size))).Some? && !ViewOf(l, s).me.closedReads
    ensures var start := |ViewOf(l, s).inn.delivered|;
            var p := ViewOf(Apply(l, Step(s, BeginRead(size))).value, s).inn;
            Budget(p, start, size) && Served(p, start, size)
  {
    hide Budget, Served, Local, Enabled;
    BudgetStarts(s, ViewOf(l, s), size);
  }

  lemma BeforeStep(before: seq<Step>, st: Step)
    requires Run(before + [st]).Some?
    ensures Run(before).Some? && Apply(Run(before).value, st) == Run(before + [st])
  {
    assert (before + [st])[..|before|] == before;
  }

  lemma BudgetStep(l: Link, st: Step, s: Side, start: nat, size: nat)
    requires Apply(l, st).Some? && !(st.side == s && st.event.BeginRead?)
    requires Budget(ViewOf(l, s).inn, start, size) && Served(ViewOf(l, s).inn, start, size)
    ensures var p := ViewOf(Apply(l, st).value, s).inn; Budget(p, start, size) && Served(p, start, size)
  {
    hide Budget, Served, Local, Enabled;
    if st.side == s {
      BudgetKeeps(s, ViewOf(l, s), st.event, start, size);
    } else {
      BudgetOther(st.side, ViewOf(l, st.side), st.event, start, size);
    }
  }
}
