/** What every run of a forwarded connection keeps, and the theorems about all runs. */
module ForwardingProof {
  import opened Bytes
  import SR = StreamReader
  import opened Forwarding

  // ---- the Forward call ----

  predicate Reported(c: Copy) {
    c.ClosingRead? || c.ClosingWrite? || c.Exited?
  }

  predicate Good(c: Copy) {
    Reported(c) && c.ok
  }

  predicate Bad(c: Copy) {
    Reported(c) && !c.ok
  }

  function N(b: bool): int {
    if b then 1 else 0
  }

  /** The WaitGroup counts the copies not done, the channel holds the errors reported and not taken,
      and the endpoints are closed by nobody but the copies and, once it has decided, the caller. */
  predicate StationOk(s: Station, up: Copy, down: Copy) {
    && s.wg == 2 - N(Good(up)) - N(Good(down))
    && s.errCh == N(Bad(up)) + N(Bad(down)) - N(!s.main.Waiting? && !s.main.ok)
    && (!s.main.Waiting? && s.main.ok ==> s.wg == 0)
    && (s.connClosed <==> s.main.ConnClosed? || s.main.AllClosed?)
    && (s.connReadClosed <==> up.ClosingWrite? || up.Exited?)
    && (s.cw <==> up.Exited? || s.main.AllClosed?)
    && (s.cr <==> down.ClosingWrite? || down.Exited? || s.main.AllClosed?)
  }

  lemma UpStationKeeps(s: Station, l: Lane, e: UpEvent)
    requires UpEnabled(s, l, e)
    ensures forall down: Copy :: StationOk(s, l.up, down) ==> StationOk(UpStation(s, l, e), UpLane(s, l, e).up, down)
  {
  }

  lemma DownStationKeeps(s: Station, l: Lane, e: DownEvent)
    requires DownEnabled(s, l, e)
    ensures forall up: Copy :: StationOk(s, up, l.down) ==> StationOk(DownStation(s, l, e), up, DownLane(s, l, e).down)
  {
    hide SR.Apply, SR.Enabled;
  }

  lemma MainStationKeeps(s: Station, up: Copy, down: Copy, e: MainEvent)
    requires StationOk(s, up, down) && MainEnabled(s, e)
    ensures StationOk(MainStation(s, e), up, down)
  {
  }

  // ---- one direction, errors or not ----

  function Payloads(fifo: seq<Message>): seq<byte> {
    if fifo == [] then []
    else (if fifo[0].op == Close then [] else fifo[0].payload) + Payloads(fifo[1..])
  }

  lemma {:induction false} PayloadsSnoc(fifo: seq<Message>, m: Message)
    ensures Payloads(fifo + [m]) == Payloads(fifo) + if m.op == Close then [] else m.payload
  {
    if fifo == [] {
      assert fifo + [m] == [m] && [m][1..] == [];
    } else {
      assert (fifo + [m])[1..] == fifo[1..] + [m];
      PayloadsSnoc(fifo[1..], m);
    }
  }

  predicate UpOk(l: Lane) {
    && l.input == l.taken + l.unread
    && match l.up
       case Reading => l.taken == l.sent
       case Writing(chunk) => l.taken == l.sent + chunk
       case Sending(chunk) => l.taken == l.sent + chunk
       case InRead => false
       case _ => l.sent <= l.taken
  }

  predicate StreamOk(l: Lane) {
    && SR.Ok(l.reader)
    && (if l.reader.stop.None? then l.reader.received + Payloads(l.fifo) == l.sent else l.reader.received <= l.sent)
  }

  predicate DownOk(l: Lane) {
    && (l.down.InRead? <==> !l.reader.pc.Idle?)
    && match l.down
       case Reading => l.output == l.reader.collected
       case InRead => l.output == l.reader.collected
       case Writing(chunk) => l.output + chunk == l.reader.collected
       case Sending(_) => false
       case _ => l.output <= l.reader.collected
  }

  predicate LaneOk(l: Lane) {
    UpOk(l) && StreamOk(l) && DownOk(l)
  }

  lemma UpOkKeeps(s: Station, l: Lane, e: UpEvent)
    requires UpEnabled(s, l, e) && UpOk(l)
    ensures UpOk(UpLane(s, l, e))
  {
    match e
    case AppSend(bytes) => Assoc(l.taken, l.unread, bytes);
    case Read(k) => Shift(l.taken, l.unread, k);
    case _ =>
  }

  lemma UpStreamKeeps(s: Station, l: Lane, e: UpEvent)
    requires UpEnabled(s, l, e) && StreamOk(l)
    ensures StreamOk(UpLane(s, l, e))
  {
    hide SR.Ok, Payloads;
    match e
    case Send =>
      PayloadsSnoc(l.fifo, SetBytes(l.up.chunk));
      Assoc(l.reader.received, Payloads(l.fifo), l.up.chunk);
    case CloseWrite =>
      PayloadsSnoc(l.fifo, CloseMsg());
      assert Payloads(l.fifo) + [] == Payloads(l.fifo);
    case _ =>
  }

  lemma MainStreamKeeps(l: Lane, e: MainEvent)
    requires StreamOk(l)
    ensures StreamOk(MainOut(l, e)) && StreamOk(MainIn(l, e))
  {
    hide SR.Ok, Payloads;
    PayloadsSnoc(l.fifo, CloseMsg());
    assert Payloads(l.fifo) + [] == Payloads(l.fifo);
  }

  lemma DownStreamKeeps(s: Station, l: Lane, e: DownEvent)
    requires DownEnabled(s, l, e) && StreamOk(l)
    ensures StreamOk(DownLane(s, l, e))
  {
    match e
    case CallRead(size) => ReaderKeeps(l.reader, SR.Call(size));
    case ReturnRead => ReaderKeeps(l.reader, SR.Collect);
    case StreamError(code) => ReaderKeeps(l.reader, SR.Receive(SR.Stop(SR.RpcError(code))));
    case Reader(ev) =>
      ReaderKeeps(l.reader, ev);
      if ev.Receive? {
        ReceiveKeeps(l);
      }
    case _ =>
  }

  lemma ReaderKeeps(r: SR.State, e: SR.Event)
    requires SR.Ok(r) && SR.Enabled(r, e)
    ensures SR.Ok(SR.Apply(r, e))
    ensures !e.Receive? ==> SR.Apply(r, e).received == r.received && SR.Apply(r, e).stop == r.stop
    ensures !e.Collect? ==> SR.Apply(r, e).collected == r.collected
  {
    SR.StepKeeps(r, e);
  }

  /** A message moves from the stream to the producer's hand. */
  lemma ReceiveKeeps(l: Lane)
    requires l.fifo != [] && l.reader.received + Payloads(l.fifo) == l.sent
    ensures GetBytes(l.fifo[0]).Data? ==>
              (l.reader.received + GetBytes(l.fifo[0]).payload) + Payloads(l.fifo[1..]) == l.sent
    ensures l.reader.received <= l.sent
  {
    var b := if l.fifo[0].op == Close then [] else l.fifo[0].payload;
    Assoc(l.reader.received, b, Payloads(l.fifo[1..]));
  }

  lemma DownOkKeeps(s: Station, l: Lane, e: DownEvent)
    requires DownEnabled(s, l, e) && DownOk(l)
    requires l.reader.pc.Idle? ==> l.reader.buf == []
    ensures DownOk(DownLane(s, l, e))
  {
    hide Payloads, SR.Handle;
    match e
    case WriteError(k) =>
      assert l.output + l.down.chunk[..k] <= l.output + l.down.chunk;
    case Reader(ev) => ReaderStaysIn(l.reader, ev);
    case StreamError(code) => ReaderStaysIn(l.reader, SR.Receive(SR.Stop(SR.RpcError(code))));
    case _ =>
  }

  /** Only Call enters Read and only Collect leaves it or hands bytes to the caller. */
  lemma ReaderStaysIn(r: SR.State, e: SR.Event)
    requires SR.Enabled(r, e) && !e.Call? && !e.Collect?
    ensures SR.Apply(r, e).collected == r.collected
    ensures SR.Apply(r, e).pc.Idle? <==> r.pc.Idle?
  {
  }

  // ---- one direction while nothing has failed ----

  predicate Over(c: Copy) {
    c.Ending? || Reported(c)
  }

  predicate AllClose(fifo: seq<Message>) {
    forall i :: 0 <= i < |fifo| ==> fifo[i].op == Close
  }

  /** No payload follows a CLOSE. */
  predicate CloseTail(fifo: seq<Message>) {
    forall i, j :: 0 <= i < j < |fifo| && fifo[i].op == Close ==> fifo[j].op == Close
  }

  predicate HasClose(fifo: seq<Message>) {
    exists i :: 0 <= i < |fifo| && fifo[i].op == Close
  }

  predicate CleanUp(l: Lane) {
    && (Over(l.up) ==> l.up.ok && l.inputEof && l.unread == [] && l.sent == l.taken)
    && CloseTail(l.fifo)
    && (HasClose(l.fifo) || l.reader.stop.Some? ==> Good(l.up))
    && (l.reader.stop.Some? ==>
          l.reader.stop.value.Eof? && l.reader.received == l.sent && AllClose(l.fifo))
  }

  predicate CleanDown(l: Lane) {
    && (Over(l.down) ==> l.down.ok && l.reader.errorsReturned == 1 && l.output == l.reader.collected)
    && (l.outputClosed ==> Good(l.down))
  }

  lemma {:induction false} NoPayloads(fifo: seq<Message>)
    requires AllClose(fifo)
    ensures Payloads(fifo) == []
  {
    if fifo != [] {
      NoPayloads(fifo[1..]);
    }
  }

  /** While nothing has failed, Forward can only have decided for success, with both copies done. */
  lemma CleanMain(s: Station, up: Copy, down: Copy)
    requires StationOk(s, up, down) && !Bad(up) && !Bad(down)
    ensures !s.main.Waiting? ==> s.main.ok && Good(up) && Good(down)
    ensures s.connClosed || s.cw ==> Good(up)
    ensures s.connClosed || s.cr ==> Good(down)
    ensures s.connReadClosed ==> Good(up)
  {
  }

  lemma CleanUpKeeps(s: Station, l: Lane, e: UpEvent)
    requires UpEnabled(s, l, e) && UpClean(s, e) && UpOk(l) && CleanUp(l)
    requires s.connClosed || s.cw || s.connReadClosed ==> Good(l.up)
    ensures CleanUp(UpLane(s, l, e))
  {
    var m := UpLane(s, l, e);
    match e
    case Send => assert !HasClose(l.fifo);
    case CloseWrite => assert HasClose(m.fifo) ==> Good(m.up);
    case ReadEof => assert l.taken + l.unread == l.taken;
    case _ =>
  }

  lemma CleanMainUp(l: Lane, e: MainEvent)
    requires CleanUp(l) && (e.CloseStream? ==> Good(l.up))
    ensures CleanUp(MainOut(l, e)) && CleanUp(MainIn(l, e))
  {
  }

  lemma CleanStreamKeeps(s: Station, l: Lane, e: DownEvent)
    requires DownEnabled(s, l, e) && DownClean(s, e) && StreamOk(l) && CleanUp(l)
    ensures CleanUp(DownLane(s, l, e))
  {
    hide SR.Ok, Payloads;
    var m := DownLane(s, l, e);
    if e.Reader? && e.event.Receive? {
      if l.fifo[0].op == Close {
        assert HasClose(l.fifo);
        assert AllClose(l.fifo);
        NoPayloads(l.fifo);
        assert l.reader.received + [] == l.reader.received;
      }
      assert forall i :: 0 <= i < |m.fifo| ==> m.fifo[i] == l.fifo[i + 1];
    } else if e.Reader? {
      StopStays(l.reader, e.event);
    }
  }

  lemma StopStays(r: SR.State, e: SR.Event)
    requires SR.Enabled(r, e) && !e.Receive?
    ensures SR.Apply(r, e).stop == r.stop && SR.Apply(r, e).received == r.received
  {
  }

  lemma CleanDownKeeps(s: Station, l: Lane, e: DownEvent)
    requires DownEnabled(s, l, e) && DownClean(s, e) && SR.Ok(l.reader) && DownOk(l) && CleanDown(l)
    requires s.connClosed || s.cr ==> Good(l.down)
    requires l.reader.stop.Some? ==> l.reader.stop.value.Eof?
    ensures CleanDown(DownLane(s, l, e))
  {
    hide SR.Conserved, SR.Handle;
  }

  lemma CleanMainDown(l: Lane, e: MainEvent)
    requires CleanDown(l) && (e.CloseConn? ==> Good(l.down))
    ensures CleanDown(MainOut(l, e)) && CleanDown(MainIn(l, e))
  {
  }

  // ---- the whole system ----

  predicate CleanLane(l: Lane) {
    CleanUp(l) && CleanDown(l)
  }

  predicate Inv(s: Sys) {
    && LaneOk(s.ab) && LaneOk(s.ba)
    && StationOk(s.a, s.ab.up, s.ba.down) && StationOk(s.b, s.ba.up, s.ab.down)
    && (s.clean ==> CleanLane(s.ab) && CleanLane(s.ba))
  }

  lemma UpLaneKeeps(s: Station, l: Lane, e: UpEvent)
    requires UpEnabled(s, l, e) && LaneOk(l)
    ensures LaneOk(UpLane(s, l, e))
  {
    hide UpOk, StreamOk;
    UpOkKeeps(s, l, e);
    UpStreamKeeps(s, l, e);
  }

  lemma DownLaneKeeps(s: Station, l: Lane, e: DownEvent)
    requires DownEnabled(s, l, e) && LaneOk(l)
    ensures LaneOk(DownLane(s, l, e))
  {
    hide DownOk, Payloads, SR.Apply, SR.Conserved;
    DownStreamKeeps(s, l, e);
    DownOkKeeps(s, l, e);
  }

  lemma CleanUpLane(s: Station, l: Lane, e: UpEvent, down: Copy)
    requires UpEnabled(s, l, e) && UpClean(s, e) && UpOk(l) && CleanLane(l)
    requires StationOk(s, l.up, down) && !Bad(down)
    ensures CleanLane(UpLane(s, l, e))
  {
    hide UpOk, CleanUp;
    assert !Bad(l.up) by {
      CleanNotBad(l);
    }
    CleanMain(s, l.up, down);
    CleanUpKeeps(s, l, e);
  }

  lemma CleanNotBad(l: Lane)
    requires CleanLane(l)
    ensures !Bad(l.up) && !Bad(l.down)
  {
  }

  lemma CleanDownLane(s: Station, l: Lane, e: DownEvent, up: Copy)
    requires DownEnabled(s, l, e) && DownClean(s, e) && StreamOk(l) && DownOk(l) && CleanLane(l)
    requires StationOk(s, up, l.down) && !Bad(up)
    ensures CleanLane(DownLane(s, l, e))
  {
    hide DownOk, DownLane, DownEnabled, DownClean, Payloads, SR.Ok;
    CleanNotBad(l);
    CleanMain(s, up, l.down);
    CleanStreamKeeps(s, l, e);
    CleanDownKeeps(s, l, e);
  }

  lemma UpKeeps(s: Sys, e: Event)
    requires Inv(s) && e.Up? && Enabled(s, e)
    ensures Inv(Apply(s, e))
  {
    hide LaneOk, StationOk, CleanLane, UpLane, UpStation, UpClean, UpEnabled, Bad;
    if e.lane {
      UpLaneKeeps(s.a, s.ab, e.up);
      UpStationKeeps(s.a, s.ab, e.up);
      UpKeepsDown(s.a, s.ab, e.up);
      if Apply(s, e).clean {
        CleanNotBad(s.ba);
        LaneParts(s.ab);
        CleanUpLane(s.a, s.ab, e.up, s.ba.down);
      }
    } else {
      UpLaneKeeps(s.b, s.ba, e.up);
      UpStationKeeps(s.b, s.ba, e.up);
      UpKeepsDown(s.b, s.ba, e.up);
      if Apply(s, e).clean {
        CleanNotBad(s.ab);
        LaneParts(s.ba);
        CleanUpLane(s.b, s.ba, e.up, s.ab.down);
      }
    }
  }

  lemma LaneParts(l: Lane)
    requires LaneOk(l)
    ensures UpOk(l) && StreamOk(l) && DownOk(l)
  {
  }

  lemma UpKeepsDown(s: Station, l: Lane, e: UpEvent)
    requires UpEnabled(s, l, e)
    ensures UpLane(s, l, e).down == l.down
  {
  }

  lemma DownKeepsUp(s: Station, l: Lane, e: DownEvent)
    requires DownEnabled(s, l, e)
    ensures DownLane(s, l, e).up == l.up
  {
    hide SR.Apply, SR.Enabled;
  }

  lemma DownKeeps(s: Sys, e: Event)
    requires Inv(s) && e.Down? && Enabled(s, e)
    ensures Inv(Apply(s, e))
  {
    hide LaneOk, StationOk, CleanLane, DownLane, DownStation, DownClean, DownEnabled, Bad;
    if e.lane {
      DownLaneKeeps(s.b, s.ab, e.down);
      DownStationKeeps(s.b, s.ab, e.down);
      DownKeepsUp(s.b, s.ab, e.down);
      if Apply(s, e).clean {
        CleanNotBad(s.ba);
        LaneParts(s.ab);
        CleanDownLane(s.b, s.ab, e.down, s.ba.up);
      }
    } else {
      DownLaneKeeps(s.a, s.ba, e.down);
      DownStationKeeps(s.a, s.ba, e.down);
      DownKeepsUp(s.a, s.ba, e.down);
      if Apply(s, e).clean {
        CleanNotBad(s.ab);
        LaneParts(s.ba);
        CleanDownLane(s.a, s.ba, e.down, s.ab.up);
      }
    }
  }

  /** Forward's own steps, for the station whose sending lane is `out` and receiving lane `inn`. */
  lemma MainLanes(s: Station, out: Lane, inn: Lane, e: MainEvent)
    requires MainEnabled(s, e) && StationOk(s, out.up, inn.down) && LaneOk(out) && LaneOk(inn)
    ensures LaneOk(MainOut(out, e)) && LaneOk(MainIn(inn, e))
    ensures StationOk(MainStation(s, e), MainOut(out, e).up, MainIn(inn, e).down)
    ensures CleanLane(out) && CleanLane(inn) ==> CleanLane(MainOut(out, e)) && CleanLane(MainIn(inn, e))
  {
    hide StreamOk, CleanUp, CleanDown;
    MainStreamKeeps(out, e);
    MainStreamKeeps(inn, e);
    MainStationKeeps(s, out.up, inn.down, e);
    if CleanLane(out) && CleanLane(inn) {
      CleanNotBad(out);
      CleanNotBad(inn);
      CleanMain(s, out.up, inn.down);
      CleanMainUp(out, e);
      CleanMainUp(inn, Done);
      CleanMainDown(out, Done);
      CleanMainDown(inn, e);
      MainFrame(out, inn, e);
    }
  }

  lemma MainFrame(out: Lane, inn: Lane, e: MainEvent)
    requires CleanDown(out) && CleanUp(inn)
    ensures CleanDown(MainOut(out, e)) && CleanUp(MainIn(inn, e))
  {
  }

  lemma MainKeeps(s: Sys, e: Event)
    requires Inv(s) && e.AtMain? && Enabled(s, e)
    ensures Inv(Apply(s, e))
  {
    hide LaneOk, StationOk, CleanLane, MainStation, MainEnabled;
    if e.station {
      MainLanes(s.a, s.ab, s.ba, e.at);
    } else {
      MainLanes(s.b, s.ba, s.ab, e.at);
    }
  }

  lemma {:induction false} RunKeeps(events: seq<Event>)
    requires Run(events).Some?
    ensures Inv(Run(events).value)
  {
    if events == [] {
      InitOk();
    } else {
      hide Inv, Enabled, Apply;
      var before := events[..|events| - 1];
      RunKeeps(before);
      var s, e := Run(before).value, events[|events| - 1];
      match e
      case Up(_, _) => UpKeeps(s, e);
      case Down(_, _) => DownKeeps(s, e);
      case AtMain(_, _) => MainKeeps(s, e);
    }
  }

  lemma InitOk()
    ensures Inv(INIT)
  {
    assert Concat<byte>([]) == [];
  }

  // ---- theorems about every run ----

  /** The direction from station a when d, else from station b; and the two stations it runs between. */
  function LaneOf(s: Sys, d: bool): Lane {
    if d then s.ab else s.ba
  }

  function StationOf(s: Sys, d: bool): Station {
    if d then s.a else s.b
  }

  lemma PrefixChain(l: Lane)
    requires LaneOk(l)
    ensures l.output <= l.reader.collected <= l.reader.received <= l.sent <= l.taken <= l.input
  {
    hide Payloads, Concat;
    var r := l.reader;
    var rest := r.buf + r.lastRead + Concat(r.queue) + SR.Hand(r);
    assert r.collected + rest == r.received;
  }

  function InCopy(c: Copy): seq<byte> {
    if c.Writing? || c.Sending? then c.chunk else []
  }

  /** Everything between the two applications, in order. */
  function InFlight(l: Lane): seq<byte> {
    var r := l.reader;
    InCopy(l.down) + (r.buf + r.lastRead + Concat(r.queue) + SR.Hand(r)) + Payloads(l.fifo) + InCopy(l.up) + l.unread
  }

  lemma NothingLost(l: Lane)
    requires LaneOk(l) && CleanLane(l)
    ensures l.output + InFlight(l) == l.input
  {
    hide Concat, Payloads;
    var r := l.reader;
    var held := r.buf + r.lastRead + Concat(r.queue) + SR.Hand(r);
    assert r.collected + held == r.received;
    assert l.output + InCopy(l.down) == r.collected;
    assert r.received + Payloads(l.fifo) == l.sent by {
      if r.stop.Some? {
        NoPayloads(l.fifo);
        assert r.received + [] == r.received;
      }
    }
    assert l.sent + InCopy(l.up) == l.taken;
    ListFlight(l.output, InCopy(l.down), held, Payloads(l.fifo), InCopy(l.up), l.unread);
  }

  lemma ListFlight<T>(o: seq<T>, a: seq<T>, b: seq<T>, c: seq<T>, d: seq<T>, e: seq<T>)
    ensures o + (a + b + c + d + e) == ((((o + a) + b) + c) + d) + e
  {
  }

  lemma ClosedAfterAll(l: Lane)
    requires LaneOk(l) && CleanLane(l)
    ensures l.outputClosed ==> l.output == l.input && l.inputEof
  {
    hide Concat, Payloads, SR.Conserved;
    if l.outputClosed {
      assert l.reader.errorsReturned == 1 && l.reader.stop.Some?;
      assert l.reader.collected + [] == l.reader.collected;
      assert l.taken + [] == l.taken;
    }
  }
}
