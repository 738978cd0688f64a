/** A run in which a Read with an empty buffer makes payload bytes pass for the end of file. */
module QemuLinkWitness {
  import opened Bytes
  import opened Framing
  import opened QemuLink
  import opened QemuLinkProof
  import opened QemuLinkSchedule

  lemma Extend(steps: seq<Step>, l: Link, side: Side, e: Event, m: Link)
    requires Run(steps) == Some(l) && Enabled(side, ViewOf(l, side), e)
    requires Update(l, side, Local(side, ViewOf(l, side), e)) == m
    ensures Run(steps + [Step(side, e)]) == Some(m)
  {
    hide Enabled, Local, Update, ViewOf;
    assert (steps + [Step(side, e)])[..|steps|] == steps;
  }

  lemma Whole<T>(s: seq<T>)
    ensures s[..|s|] == s && s[|s|..] == [] && [] + s == s && s + [] == s
  {
  }

  // ---- the handshake ----

  const UP := FRESH_END.(hello := Said)
  const OPEN := FRESH_PIPE.(said := true, started := RDY, sent := RDY, reading := Idle)

  /** A side says hello over a fresh pipe. */
  lemma Says(steps: seq<Step>, l: Link, s: Side)
    requires Run(steps) == Some(l) && ViewOf(l, s).me == FRESH_END && ViewOf(l, s).out == FRESH_PIPE
    requires s.Guest? ==> l.down == OPEN
    ensures Run(steps + [Step(s, SayHello)] + [Step(s, Push(3))] + [Step(s, HelloSent)]) ==
            Some(Update(l, s, ViewOf(l, s).(me := UP, out := OPEN.(chan := RDY, reading := Greeting([])))))
  {
    hide Run;
    Whole(RDY);
    var v := ViewOf(l, s);
    var v1 := v.(me := FRESH_END.(hello := Saying), out := FRESH_PIPE.(said := true, started := RDY, pend := RDY));
    var v2 := v.(me := FRESH_END.(hello := Saying), out := OPEN.(chan := RDY, reading := Greeting([])));
    var v3 := v.(me := UP, out := OPEN.(chan := RDY, reading := Greeting([])));
    Extend(steps, l, s, SayHello, Update(l, s, v1));
    Extend(steps + [Step(s, SayHello)], Update(l, s, v1), s, Push(3), Update(l, s, v2));
    Extend(steps + [Step(s, SayHello)] + [Step(s, Push(3))], Update(l, s, v2), s, HelloSent, Update(l, s, v3));
  }

  /** ... and the other one hears it. */
  lemma Hears(steps: seq<Step>, l: Link, s: Side)
    requires Run(steps) == Some(l) && ViewOf(l, s).inn == OPEN.(chan := RDY, reading := Greeting([]))
    requires !ViewOf(l, s).me.refused && (s.Host? ==> l.host == UP)
    ensures Run(steps + [Step(s, HearHello(3))] + [Step(s, CheckHello)]) ==
            Some(Update(l, s, ViewOf(l, s).(inn := OPEN)))
  {
    hide Run;
    Whole(RDY);
    var v := ViewOf(l, s);
    var v1 := v.(inn := OPEN.(reading := Greeting(RDY)));
    Extend(steps, l, s, HearHello(3), Update(l, s, v1));
    Extend(steps + [Step(s, HearHello(3))], Update(l, s, v1), s, CheckHello, Update(l, s, v.(inn := OPEN)));
  }

  /** No Write and no Read begins. */
  predicate NoCalls(steps: seq<Step>) {
    forall i :: 0 <= i < |steps| ==> !steps[i].event.BeginWrite? && !steps[i].event.BeginRead?
  }

  lemma NoCallsSnoc(steps: seq<Step>, st: Step)
    requires NoCalls(steps) && !st.event.BeginWrite? && !st.event.BeginRead?
    ensures NoCalls(steps + [st])
  {
  }

  /** One side says hello and the other one hears it. */
  lemma Greets(steps: seq<Step>, l: Link, s: Side, r: Side) returns (more: seq<Step>)
    requires Run(steps) == Some(l) && NoCalls(steps) && r == Other(s)
    requires ViewOf(l, s).me == FRESH_END && ViewOf(l, s).out == FRESH_PIPE
    requires if s.Host? then !l.guest.refused else l.down == OPEN && l.host == UP
    ensures Run(more) == Some(Update(l, s, ViewOf(l, s).(me := UP, out := OPEN))) && NoCalls(more)
  {
    hide Run, NoCalls;
    Says(steps, l, s);
    NoCallsSnoc(steps, Step(s, SayHello));
    NoCallsSnoc(steps + [Step(s, SayHello)], Step(s, Push(3)));
    NoCallsSnoc(steps + [Step(s, SayHello)] + [Step(s, Push(3))], Step(s, HelloSent));
    more := steps + [Step(s, SayHello)] + [Step(s, Push(3))] + [Step(s, HelloSent)];
    Hears(more, Update(l, s, ViewOf(l, s).(me := UP, out := OPEN.(chan := RDY, reading := Greeting([])))), r);
    NoCallsSnoc(more, Step(r, HearHello(3)));
    NoCallsSnoc(more + [Step(r, HearHello(3))], Step(r, CheckHello));
    more := more + [Step(r, HearHello(3))] + [Step(r, CheckHello)];
  }

  lemma Handshake() returns (steps: seq<Step>)
    ensures Run(steps) == Some(Link(UP, UP, OPEN, OPEN)) && NoCalls(steps)
  {
    assert Run([]) == Some(INIT);
    hide Run;
    steps := Greets([], INIT, Host, Guest);
    steps := Greets(steps, Link(UP, FRESH_END, OPEN, FRESH_PIPE), Guest, Host);
  }

  // ---- the guest writes five bytes, the host reads one, then none ----

  const PAYLOAD: seq<byte> := [9, 0, 0, 0, 0]

  /** The direction to the host once the payload is under way. */
  function Carrying(chan: seq<byte>, reading: Reading, left: nat, taken: nat, delivered: seq<byte>): Pipe {
    OPEN.(begun := [PAYLOAD], started := RDY + Frame(PAYLOAD), sent := RDY + Frame(PAYLOAD), chan := chan,
          reading := reading, left := left, taken := taken, delivered := delivered)
  }

  lemma Writes(steps: seq<Step>)
    requires Run(steps) == Some(Link(UP, UP, OPEN, OPEN))
    ensures Run(steps + [Step(Guest, BeginWrite(PAYLOAD))] + [Step(Guest, Push(9))] + [Step(Guest, EndWrite)]) ==
            Some(Link(UP, UP, OPEN, Carrying(Frame(PAYLOAD), Idle, 0, 0, [])))
  {
    FrameLength(PAYLOAD);
    hide Run, Frame;
    var f := Frame(PAYLOAD);
    Whole(f);
    assert [] + [PAYLOAD] == [PAYLOAD];
    var busy := UP.(lock := Held(false, false));
    var l0 := Link(UP, UP, OPEN, OPEN);
    var l1 := Link(UP, busy, OPEN, OPEN.(begun := [PAYLOAD], started := RDY + f, pend := f));
    var l2 := Link(UP, busy, OPEN, Carrying(f, Idle, 0, 0, []));
    Extend(steps, l0, Guest, BeginWrite(PAYLOAD), l1);
    Extend(steps + [Step(Guest, BeginWrite(PAYLOAD))], l1, Guest, Push(9), l2);
    Extend(steps + [Step(Guest, BeginWrite(PAYLOAD))] + [Step(Guest, Push(9))], l2, Guest, EndWrite,
           Link(UP, UP, OPEN, Carrying(f, Idle, 0, 0, [])));
  }

  function At(p: Pipe): Link {
    Link(UP, UP, OPEN, p)
  }

  /** A Read takes the header in front of `rest`. */
  lemma TakesHeader(steps: seq<Step>, size: nat, h: seq<byte>, rest: seq<byte>, left: nat, taken: nat,
                    delivered: seq<byte>)
    requires |h| == 4 && Min(left, size) == 0
    requires Run(steps) == Some(At(Carrying(h + rest, Idle, left, taken, delivered)))
    ensures Run(steps + [Step(Host, BeginRead(size))] + [Step(Host, TakeHeader(4))]) ==
            Some(At(Carrying(rest, Header(size, h), left, taken, delivered)))
  {
    hide Run, Frame, FromLE32;
    Whole(h);
    assert (h + rest)[..4] == h && (h + rest)[4..] == rest;
    var l0 := At(Carrying(h + rest, Idle, left, taken, delivered));
    var l1 := At(Carrying(h + rest, Header(size, []), left, taken, delivered));
    var l2 := At(Carrying(rest, Header(size, h), left, taken, delivered));
    Extend(steps, l0, Host, BeginRead(size), l1);
    Extend(steps + [Step(Host, BeginRead(size))], l1, Host, TakeHeader(4), l2);
  }

  /** The header announces five bytes, and one of them is wanted. */
  lemma LearnsLength(steps: seq<Step>, h: seq<byte>)
    requires |h| == 4 && FromLE32(h) == 5
    requires Run(steps) == Some(At(Carrying(PAYLOAD, Header(1, h), 0, 0, [])))
    ensures Run(steps + [Step(Host, HeaderDone)]) == Some(At(Carrying(PAYLOAD, Body(1, 4), 0, 1, [])))
  {
    hide Run, Frame, FromLE32;
    Extend(steps, At(Carrying(PAYLOAD, Header(1, h), 0, 0, [])), Host, HeaderDone,
           At(Carrying(PAYLOAD, Body(1, 4), 0, 1, [])));
  }

  lemma TakesOne(steps: seq<Step>, b: byte, rest: seq<byte>)
    requires Run(steps) == Some(At(Carrying([b] + rest, Body(1, |rest|), 0, 1, [])))
    ensures Run(steps + [Step(Host, TakeBody(1))] + [Step(Host, BodyDone)]) ==
            Some(At(Carrying(rest, Idle, |rest|, 1, [b])))
  {
    hide Run, Frame;
    var l0 := At(Carrying([b] + rest, Body(1, |rest|), 0, 1, []));
    var l1 := At(Carrying(rest, Body(0, |rest|), 0, 1, [b]));
    assert ([b] + rest)[..1] == [b] && ([b] + rest)[1..] == rest && [] + [b] == [b];
    Extend(steps, l0, Host, TakeBody(1), l1);
    Extend(steps + [Step(Host, TakeBody(1))], l1, Host, BodyDone, At(Carrying(rest, Idle, |rest|, 1, [b])));
  }

  /** A Read of one byte takes the first of the five. */
  lemma ReadsOne(steps: seq<Step>)
    requires Run(steps) == Some(At(Carrying(PAYLOAD, Header(1, LE32(5)), 0, 0, [])))
    ensures Run(steps + [Step(Host, HeaderDone)] + [Step(Host, TakeBody(1))] + [Step(Host, BodyDone)]) ==
            Some(At(Carrying([0, 0, 0, 0], Idle, 4, 1, [9])))
  {
    hide Run, Carrying, LE32, FromLE32;
    ShortHeader(5);
    LearnsLength(steps, LE32(5));
    var zeros: seq<byte> := [0, 0, 0, 0];
    assert PAYLOAD == [9] + zeros;
    TakesOne(steps + [Step(Host, HeaderDone)], 9, zeros);
  }

  lemma Zeros()
    ensures LE32(0) == [0, 0, 0, 0] && FromLE32([0, 0, 0, 0]) == 0
  {
    ShortHeader(0);
    assert LE(0, 4) == [0] + LE(0, 3) && LE(0, 3) == [0] + LE(0, 2) && LE(0, 2) == [0] + LE(0, 1) && LE(0, 1) == [0];
    assert LE32(0) == [0, 0, 0, 0];
  }

  /**
   Handshake, a Write of five bytes by the guest, a Read of one byte by the host and then a Read with
   an empty buffer: the host reports end of file although the guest has closed nothing, and four bytes
   have not been delivered.
   */
  lemma EmptyReadFalseEof() returns (steps: seq<Step>)
    ensures Run(steps).Some?
    ensures var l := Run(steps).value;
            && l.up.eof && l.up.delivered == [9] && WrittenBy(steps, Guest) == [9, 0, 0, 0, 0]
            && !Did(steps, Guest, ClosingWrites) && !l.up.cut && !l.up.failed
  {
    hide Run, FromLE32, LE32;
    steps := Handshake();
    Writes(steps);
    steps := steps + [Step(Guest, BeginWrite(PAYLOAD))] + [Step(Guest, Push(9))] + [Step(Guest, EndWrite)];
    TakesHeader(steps, 1, LE32(5), PAYLOAD, 0, 0, []);
    steps := steps + [Step(Host, BeginRead(1))] + [Step(Host, TakeHeader(4))];
    ReadsOne(steps);
    steps := steps + [Step(Host, HeaderDone)] + [Step(Host, TakeBody(1))] + [Step(Host, BodyDone)];
    var zeros: seq<byte> := [0, 0, 0, 0];
    Whole(zeros);
    TakesHeader(steps, 0, zeros, [], 4, 1, [9]);
    steps := steps + [Step(Host, BeginRead(0))] + [Step(Host, TakeHeader(4))];
    Zeros();
    var l := At(Carrying([], Header(0, zeros), 4, 1, [9]));
    var end := At(Carrying([], Idle, 4, 2, [9]).(eof := true));
    Extend(steps, l, Host, HeaderDone, end);
    steps := steps + [Step(Host, HeaderDone)];
    ConcatOne(PAYLOAD);
    WrittenSame(steps, Host);
    hide PayloadsBy, CloseSent, Did;
    ScheduleDecides(steps, Guest);
  }
}
