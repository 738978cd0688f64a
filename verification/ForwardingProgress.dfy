/**
 Forwarding never gets stuck: while nothing has failed, a direction whose application has half-closed can
 always be brought to its end, and then the far application has every byte and the end of file.
 */
module ForwardingProgress {
  import opened Bytes
  import SR = StreamReader
  import opened Forwarding
  import opened ForwardingProof
  import opened ForwardingSchedule

  // ---- what holds of a direction in every run ----

  /** The CLOSE message of a copy that has exited is under way or has arrived. */
  predicate Announced(l: Lane) {
    l.up.Exited? ==> HasClose(l.fifo) || l.reader.stop.Some?
  }

  /** The error of the stream is still to come, unless the copy has been told. */
  predicate Untold(l: Lane) {
    l.reader.errorsReturned == 0 || Over(l.down) || (l.down.InRead? && l.reader.pc.Returned? && l.reader.pc.error.Some?)
  }

  /** The far application is told when the copy to it has exited. */
  predicate Told(l: Lane) {
    l.down.Exited? ==> l.outputClosed
  }

  predicate Live(l: Lane) {
    Announced(l) && Untold(l) && Told(l)
  }

  lemma UpLive(s: Station, l: Lane, e: UpEvent)
    requires UpEnabled(s, l, e) && Live(l)
    ensures Live(UpLane(s, l, e))
  {
    var m := UpLane(s, l, e);
    if HasClose(l.fifo) {
      var i :| 0 <= i < |l.fifo| && l.fifo[i].op == Close;
      assert m.fifo[i] == l.fifo[i];
    }
    if e.CloseWrite? {
      assert m.fifo[|l.fifo|].op == Close;
    }
  }

  lemma DownAnnounced(s: Station, l: Lane, e: DownEvent)
    requires DownEnabled(s, l, e) && Announced(l)
    ensures Announced(DownLane(s, l, e))
  {
    hide SR.Handle;
    var m := DownLane(s, l, e);
    DownKeepsUp(s, l, e);
    match e
    case Reader(ev) =>
      if ev.Receive? {
        ReceivesStop(l.reader, ev);
        if HasClose(l.fifo) && l.fifo[0].op != Close {
          var i :| 0 <= i < |l.fifo| && l.fifo[i].op == Close;
          assert m.fifo[i - 1] == l.fifo[i];
        }
      } else {
        StopStays(l.reader, ev);
      }
    case StreamError(code) => ReceivesStop(l.reader, SR.Receive(SR.Stop(SR.RpcError(code))));
    case CallRead(size) => StopStays(l.reader, SR.Call(size));
    case ReturnRead => StopStays(l.reader, SR.Collect);
    case _ =>
  }

  /** Only TakeError returns the error, and it does return one. */
  lemma ErrorReturned(r: SR.State, e: SR.Event)
    requires SR.Enabled(r, e)
    ensures !e.TakeError? ==> SR.Apply(r, e).errorsReturned == r.errorsReturned
    ensures e.TakeError? ==> SR.Apply(r, e).pc.Returned? && SR.Apply(r, e).pc.error.Some?
    ensures !e.TakeError? && !e.Collect? && r.pc.Returned? ==> SR.Apply(r, e).pc == r.pc
  {
  }

  lemma DownUntold(s: Station, l: Lane, e: DownEvent)
    requires DownEnabled(s, l, e) && SR.Ok(l.reader) && DownOk(l) && Untold(l) && Told(l)
    ensures Untold(DownLane(s, l, e)) && Told(DownLane(s, l, e))
  {
    hide SR.Conserved, SR.Handle;
    match e
    case Reader(ev) => ErrorReturned(l.reader, ev);
    case StreamError(code) => ErrorReturned(l.reader, SR.Receive(SR.Stop(SR.RpcError(code))));
    case CallRead(size) => ErrorReturned(l.reader, SR.Call(size));
    case ReturnRead => ErrorReturned(l.reader, SR.Collect);
    case _ =>
  }

  lemma MainLive(l: Lane, e: MainEvent)
    requires Live(l)
    ensures Live(MainOut(l, e)) && Live(MainIn(l, e))
  {
    var m := MainOut(l, e);
    if HasClose(l.fifo) {
      var i :| 0 <= i < |l.fifo| && l.fifo[i].op == Close;
      assert m.fifo[i] == l.fifo[i];
    }
  }

  lemma LiveStep(s: Sys, e: Event, d: bool)
    requires Inv(s) && Enabled(s, e) && Live(LaneOf(s, d))
    ensures Live(LaneOf(Apply(s, e), d))
  {
    StationParts(s, d);
    LaneParts(LaneOf(s, d));
    hide Inv, LaneOk, StationOk, SR.Ok, DownOk, UpOk, StreamOk, Apply, Enabled, UpLane, DownLane, MainOut, MainIn;
    hide LaneOf, StationOf, Announced, Untold, Told;
    match e
    case Up(lane, u) =>
      ApplyUp(s, lane, u);
      if lane == d {
        UpLive(StationOf(s, d), LaneOf(s, d), u);
      }
    case Down(lane, w) =>
      ApplyDown(s, lane, w);
      if lane == d {
        DownAnnounced(StationOf(s, !d), LaneOf(s, d), w);
        DownUntold(StationOf(s, !d), LaneOf(s, d), w);
      }
    case AtMain(st, m) =>
      ApplyMain(s, st, m);
      MainLive(LaneOf(s, d), m);
  }

  lemma {:induction false} AlwaysLive(events: seq<Event>, d: bool)
    requires Run(events).Some?
    ensures Live(LaneOf(Run(events).value, d))
  {
    if events != [] {
      var before, e := events[..|events| - 1], events[|events| - 1];
      AlwaysLive(before, d);
      RunKeeps(before);
      hide Inv, Live, Enabled, Apply;
      LiveStep(Run(before).value, e, d);
    }
  }

  // ---- what the closes tell the other side ----

  /** The far application is told exactly when the copy to it has exited or Forward has closed its
      connection; and the other station is sent a CLOSE when the copy to it has exited or Forward has closed
      the stream. */
  predicate Passed(l: Lane, near: Station, far: Station) {
    && (l.outputClosed <==> l.down.Exited? || far.connClosed)
    && (l.up.Exited? || near.main.AllClosed? ==> HasClose(l.fifo) || l.reader.stop.Some?)
  }

  lemma UpPasses(s: Station, l: Lane, far: Station, e: UpEvent)
    requires UpEnabled(s, l, e) && Passed(l, s, far) && Announced(l)
    ensures Passed(UpLane(s, l, e), UpStation(s, l, e), far)
  {
    hide Announced;
    var m := UpLane(s, l, e);
    if HasClose(l.fifo) {
      var i :| 0 <= i < |l.fifo| && l.fifo[i].op == Close;
      assert m.fifo[i] == l.fifo[i];
    }
    if e.CloseWrite? {
      assert m.fifo[|l.fifo|].op == Close;
    }
  }

  lemma DownPasses(s: Station, l: Lane, near: Station, e: DownEvent)
    requires DownEnabled(s, l, e) && Passed(l, near, s)
    ensures Passed(DownLane(s, l, e), near, DownStation(s, l, e))
  {
    var m := DownLane(s, l, e);
    assert m.outputClosed <==> m.down.Exited? || DownStation(s, l, e).connClosed by {
      hide SR.Apply, SR.Enabled;
    }
    if near.main.AllClosed? && !l.up.Exited? {
      DownAnnounced(s, l.(up := Exited(true)), e);
      UpIrrelevant(s, l, e);
    } else {
      DownAnnounced(s, l, e);
      DownKeepsUp(s, l, e);
    }
  }

  /** The copy from the stream does not look at the one to it. */
  lemma UpIrrelevant(s: Station, l: Lane, e: DownEvent)
    requires DownEnabled(s, l, e)
    ensures var k := l.(up := Exited(true));
            DownEnabled(s, k, e) && DownLane(s, k, e) == DownLane(s, l, e).(up := Exited(true))
  {
    hide SR.Apply, SR.Enabled;
  }

  lemma MainPasses(near: Station, far: Station, l: Lane, e: MainEvent)
    requires Passed(l, near, far)
    ensures MainEnabled(near, e) ==> Passed(MainOut(l, e), MainStation(near, e), far)
    ensures MainEnabled(far, e) ==> Passed(MainIn(l, e), near, MainStation(far, e))
  {
    var m := MainOut(l, e);
    if HasClose(l.fifo) {
      var i :| 0 <= i < |l.fifo| && l.fifo[i].op == Close;
      assert m.fifo[i] == l.fifo[i];
    }
    if e.CloseStream? {
      assert m.fifo[|l.fifo|].op == Close;
    }
  }

  lemma {:induction false} AlwaysPassed(events: seq<Event>, d: bool)
    requires Run(events).Some?
    ensures var s := Run(events).value; Passed(LaneOf(s, d), StationOf(s, d), StationOf(s, !d))
  {
    if events != [] {
      var before, e := events[..|events| - 1], events[|events| - 1];
      AlwaysPassed(before, d);
      AlwaysLive(before, d);
      hide Live, Passed, Enabled, Apply;
      PassedStep(Run(before).value, e, d);
    }
  }

  lemma PassedStep(s: Sys, e: Event, d: bool)
    requires Enabled(s, e) && Live(LaneOf(s, d)) && Passed(LaneOf(s, d), StationOf(s, d), StationOf(s, !d))
    ensures var t := Apply(s, e); Passed(LaneOf(t, d), StationOf(t, d), StationOf(t, !d))
  {
    hide Passed, Apply, Enabled, UpLane, UpStation, DownLane, DownStation, MainOut, MainIn, MainStation;
    hide LaneOf, StationOf;
    match e
    case Up(lane, u) =>
      ApplyUp(s, lane, u);
      if lane == d {
        UpPasses(StationOf(s, d), LaneOf(s, d), StationOf(s, !d), u);
      } else {
        OwnUp(StationOf(s, !d), LaneOf(s, !d), u, LaneOf(s, d), StationOf(s, d));
      }
    case Down(lane, w) =>
      ApplyDown(s, lane, w);
      if lane == d {
        DownPasses(StationOf(s, !d), LaneOf(s, d), StationOf(s, d), w);
      } else {
        OwnDown(StationOf(s, d), LaneOf(s, !d), w, LaneOf(s, d), StationOf(s, !d));
      }
    case AtMain(st, m) =>
      ApplyMain(s, st, m);
      MainPasses(StationOf(s, d), StationOf(s, !d), LaneOf(s, d), m);
  }

  /** The other direction's copies change nothing that matters here. */
  lemma OwnUp(far: Station, other: Lane, e: UpEvent, l: Lane, near: Station)
    requires UpEnabled(far, other, e) && Passed(l, near, far)
    ensures Passed(l, near, UpStation(far, other, e))
  {
  }

  lemma OwnDown(near: Station, other: Lane, e: DownEvent, l: Lane, far: Station)
    requires DownEnabled(near, other, e) && Passed(l, near, far)
    ensures Passed(l, DownStation(near, other, e), far)
  {
    hide SR.Apply, SR.Enabled;
  }

  /**
   When Forward has returned, its connection and its stream are closed: the application on its connection
   has been told, neither half of the stream is usable, and a CLOSE is on its way to the other station or
   has arrived there. And an application is told end of file only by a copy that has exited or by that.
   */
  lemma ReturnedIsClosed(events: seq<Event>, d: bool)
    requires Run(events).Some?
    ensures var s := Run(events).value;
            var st, out, in_ := StationOf(s, d), LaneOf(s, d), LaneOf(s, !d);
            && (st.main.AllClosed? ==>
                  && st.connClosed && st.cr && st.cw && in_.outputClosed
                  && (HasClose(out.fifo) || out.reader.stop.Some?))
            && (in_.outputClosed <==> in_.down.Exited? || st.connClosed)
            && (out.up.Exited? ==> HasClose(out.fifo) || out.reader.stop.Some?)
  {
    hide Run, LaneOk, CleanLane;
    RunKeeps(events);
    AlwaysPassed(events, d);
    AlwaysPassed(events, !d);
  }

  // ---- a step that helps ----

  function NextUp(l: Lane): UpEvent {
    match l.up
    case Reading => if l.unread != [] then Read(|l.unread|) else ReadEof
    case Writing(_) => CheckWrite
    case Sending(_) => Send
    case Ending(_) => Report
    case ClosingRead(_) => CloseRead
    case _ => CloseWrite
  }

  function NextReader(l: Lane): SR.Event {
    var r := l.reader;
    if r.pc.AwaitError? then SR.TakeError
    else if r.queue != [] then SR.Dequeue
    else if r.closed then SR.FindClosed
    else if r.pc.Drain? then SR.Default
    else if r.hand.Some? then SR.Enqueue
    else if r.stop.None? && l.fifo != [] then SR.Receive(GetBytes(l.fifo[0]))
    else if !r.posted then SR.PostError
    else SR.CloseQueue
  }

  function NextDown(l: Lane): DownEvent {
    match l.down
    case Reading => CallRead(|l.reader.lastRead| + 1)
    case InRead => if l.reader.pc.Returned? then ReturnRead else Reader(NextReader(l))
    case Writing(_) => Write
    case Ending(_) => ReportDown
    case ClosingRead(_) => CloseReadDown
    case _ => CloseWriteDown
  }

  function UpRank(l: Lane): nat {
    (if l.unread != [] then 4 else 0) +
    match l.up
    case Reading => 5
    case Writing(_) => 7
    case Sending(_) => 6
    case Ending(_) => 4
    case ClosingRead(_) => 3
    case ClosingWrite(_) => 2
    case _ => 0
  }

  function Work(l: Lane): nat {
    var r := l.reader;
    4 * |l.fifo| + 3 * Flag(r.hand.Some?) + 2 * |r.queue| + Flag(!r.posted) + Flag(!r.closed)
  }

  function Phase(l: Lane): nat {
    match l.down
    case Reading => 6
    case InRead => (
      match l.reader.pc
      case Drain(_) => 9
      case Returned(None) => 8
      case First(_) => 5
      case AwaitError => 4
      case Returned(Some(_)) => 3
      case Idle => 0
    )
    case Writing(_) => 7
    case Ending(_) => 2
    case ClosingRead(_) => 1
    case _ => 0
  }

  function Flag(b: bool): nat {
    if b then 1 else 0
  }

  predicate Closer(m: Lane, l: Lane) {
    || UpRank(m) < UpRank(l)
    || (UpRank(m) == UpRank(l) && Work(m) < Work(l))
    || (UpRank(m) == UpRank(l) && Work(m) == Work(l) && Flag(m.reader.lastRead != []) < Flag(l.reader.lastRead != []))
    || (&& UpRank(m) == UpRank(l) && Work(m) == Work(l)
        && Flag(m.reader.lastRead != []) == Flag(l.reader.lastRead != []) && Phase(m) < Phase(l))
  }

  /** Nothing on this side has been closed before its copy was over. */
  predicate Unhindered(s: Station, up: Copy) {
    !Good(up) ==> !s.connClosed && !s.connReadClosed && !s.cw
  }

  lemma UpHelps(s: Station, l: Lane)
    requires !l.up.Exited? && !l.up.InRead? && l.inputEof && Unhindered(s, l.up)
    ensures UpEnabled(s, l, NextUp(l)) && !NextUp(l).ReadError? && !NextUp(l).SendError? && !NextUp(l).AppSend?
    ensures UpRank(UpLane(s, l, NextUp(l))) < UpRank(l) && UpLane(s, l, NextUp(l)).outputClosed == l.outputClosed
  {
  }

  /** The reader's next step is possible. */
  lemma ReaderCan(s: Station, l: Lane)
    requires l.up.Exited? && l.down.InRead? && !l.reader.pc.Returned? && SR.Ok(l.reader) && DownOk(l) && Live(l)
    ensures DownEnabled(s, l, Reader(NextReader(l)))
  {
    hide SR.Conserved, Payloads;
  }

  /** What it does to the work that is left. */
  lemma ReaderWorks(l: Lane, e: SR.Event)
    requires SR.Enabled(l.reader, e) && FromFifo(l, e) && e == NextReader(l)
    requires l.down.InRead? && !l.reader.pc.Returned? && !l.reader.pc.Idle?
    requires l.reader.pc.First? ==> l.reader.buf == []
    ensures var r := SR.Apply(l.reader, e);
            var m := if e.Receive? then l.(reader := r, fifo := l.fifo[1..]) else l.(reader := r);
            Work(m) < Work(l) || (Work(m) == Work(l) && r.lastRead == l.reader.lastRead && Phase(m) < Phase(l))
  {
  }

  lemma ReaderHelps(s: Station, l: Lane)
    requires l.up.Exited? && l.down.InRead? && !l.reader.pc.Returned? && SR.Ok(l.reader) && DownOk(l) && Live(l)
    ensures DownEnabled(s, l, Reader(NextReader(l)))
    ensures var m := DownLane(s, l, Reader(NextReader(l)));
            Work(m) < Work(l) || (Work(m) == Work(l) && m.reader.lastRead == l.reader.lastRead && Phase(m) < Phase(l))
  {
    ReaderCan(s, l);
    assert l.reader.pc.First? ==> l.reader.buf == [];
    hide SR.Ok, SR.Apply, NextReader, Live, Work, Phase;
    ReaderWorks(l, NextReader(l));
  }

  lemma DownHelps(s: Station, l: Lane)
    requires l.up.Exited? && !l.down.Exited? && SR.Ok(l.reader) && DownOk(l) && Live(l)
    requires !Good(l.down) ==> !s.connClosed && !s.cr
    ensures var e := NextDown(l);
            && DownEnabled(s, l, e) && !e.WriteError? && !e.StreamError?
            && (Closer(DownLane(s, l, e), l) || DownLane(s, l, e).outputClosed)
  {
    assert l.reader.pc.Returned? && l.reader.pc.error.Some? ==> l.reader.buf == [];
    hide SR.Conserved, Payloads, SR.Ok, NextReader;
    if l.down.InRead? && !l.reader.pc.Returned? {
      ReaderHelps(s, l);
      DownKeepsUp(s, l, Reader(NextReader(l)));
      UnreadStays(s, l, Reader(NextReader(l)));
    }
  }

  lemma UnreadStays(s: Station, l: Lane, e: DownEvent)
    requires DownEnabled(s, l, e)
    ensures DownLane(s, l, e).unread == l.unread
  {
    hide SR.Apply, SR.Enabled;
  }

  // ---- to the end ----

  function NextEvent(l: Lane, d: bool): Event {
    if l.up.Exited? then Down(d, NextDown(l)) else Up(d, NextUp(l))
  }

  lemma NextHelps(s: Sys, d: bool)
    requires Inv(s) && s.clean && Live(LaneOf(s, d)) && LaneOf(s, d).inputEof && !LaneOf(s, d).outputClosed
    ensures var e := NextEvent(LaneOf(s, d), d);
            && Enabled(s, e) && !Fails(e, true) && !Fails(e, false) && !(e.Up? && e.up.AppSend?)
            && (Closer(LaneOf(Apply(s, e), d), LaneOf(s, d)) || LaneOf(Apply(s, e), d).outputClosed)
            && LaneOf(Apply(s, e), d).inputEof
  {
    var l := LaneOf(s, d);
    var e := NextEvent(l, d);
    Hindrances(s, d);
    if l.up.Exited? {
      assert !l.down.Exited?;
      hide Inv, Live, Closer, DownLane, DownEnabled, NextDown, DownStation, DownClean;
      DownHelps(StationOf(s, !d), l);
      NextEnabled(s, d);
      ApplyDown(s, d, NextDown(l));
      DownInput(StationOf(s, !d), l, NextDown(l));
    } else {
      hide Inv, Live, UpLane, UpEnabled, NextUp, UpStation, UpClean, Unhindered, UpRank;
      UpHelps(StationOf(s, d), l);
      NextEnabled(s, d);
      ApplyUp(s, d, NextUp(l));
      UpInput(StationOf(s, d), l, NextUp(l));
    }
  }

  lemma Hindrances(s: Sys, d: bool)
    requires Inv(s) && s.clean
    ensures var l := LaneOf(s, d);
            && Unhindered(StationOf(s, d), l.up) && !l.up.InRead?
            && (!Good(l.down) ==> !StationOf(s, !d).connClosed && !StationOf(s, !d).cr)
            && SR.Ok(l.reader) && DownOk(l)
  {
    StationParts(s, d);
    StationParts(s, !d);
    LaneParts(LaneOf(s, d));
    hide SR.Ok, StationOk, DownOk, LaneOk, StreamOk;
    CleanNotBad(LaneOf(s, d));
    CleanNotBad(LaneOf(s, !d));
    CleanMain(StationOf(s, d), LaneOf(s, d).up, LaneOf(s, !d).down);
    CleanMain(StationOf(s, !d), LaneOf(s, !d).up, LaneOf(s, d).down);
  }

  lemma NextEnabled(s: Sys, d: bool)
    ensures var l := LaneOf(s, d);
            Enabled(s, NextEvent(l, d)) <==>
              if l.up.Exited? then DownEnabled(StationOf(s, !d), l, NextDown(l))
              else UpEnabled(StationOf(s, d), l, NextUp(l))
  {
    hide UpEnabled, DownEnabled, NextUp, NextDown;
  }

  lemma SentSame(events: seq<Event>, e: Event, d: bool)
    requires !(e.Up? && e.up.AppSend?)
    ensures SentBy(events + [e], d) == SentBy(events, d)
  {
    assert (events + [e])[..|events|] == events;
  }

  /**
   From every failure-free reachable state in which the application of a direction has half-closed, some
   failure-free continuation gives the far application exactly what was written and the end of file.
   */
  lemma {:induction false} Completes(events: seq<Event>, d: bool) returns (all: seq<Event>)
    requires Run(events).Some? && NoFailure(events) && Up(d, AppClose) in events
    ensures events <= all && Run(all).Some? && NoFailure(all) && SentBy(all, d) == SentBy(events, d)
    ensures var l := LaneOf(Run(all).value, d); l.outputClosed && l.output == SentBy(events, d)
    decreases UpRank(LaneOf(Run(events).value, d)), Work(LaneOf(Run(events).value, d)),
              Flag(LaneOf(Run(events).value, d).reader.lastRead != []), Phase(LaneOf(Run(events).value, d))
  {
    hide Run, Failed, SentBy, Inv, Enabled, Apply, Live, UpRank, Work, Phase, InFlight;
    var s := Run(events).value;
    var l := LaneOf(s, d);
    if l.outputClosed {
      EndToEndClean(events, d);
      all := events;
    } else {
      RunKeeps(events);
      NoFailureClean(events);
      AlwaysLive(events, d);
      ScheduleDecides(events, d);
      NextHelps(s, d);
      var e := NextEvent(l, d);
      var more := events + [e];
      RunSnoc(events, e);
      FailedSnoc(events, e, true);
      FailedSnoc(events, e, false);
      SentSame(events, e, d);
      if LaneOf(Apply(s, e), d).outputClosed {
        EndToEndClean(more, d);
        all := more;
      } else {
        all := Completes(more, d);
      }
    }
  }

  lemma RunSnoc(events: seq<Event>, e: Event)
    requires Run(events).Some? && Enabled(Run(events).value, e)
    ensures Run(events + [e]) == Some(Apply(Run(events).value, e))
  {
    hide Enabled, Apply;
    assert (events + [e])[..|events|] == events;
  }

  // ---- what the surroundings may do at any time ----

  /** An application that has not half-closed can always write more. */
  lemma CanSend(events: seq<Event>, d: bool, bytes: seq<byte>)
    requires Run(events).Some? && Up(d, AppClose) !in events
    ensures var more := events + [Up(d, AppSend(bytes))];
            Run(more).Some? && SentBy(more, d) == SentBy(events, d) + bytes
  {
    var e := Up(d, AppSend(bytes));
    assert (events + [e])[..|events|] == events;
    hide Run, SentBy, Failed, Trouble;
    ScheduleDecides(events, d);
    RunSnoc(events, e);
    assert SentBy(events + [e], d) == SentBy(events, d) + bytes by {
      SentMore(events, d, bytes);
    }
  }

  lemma SentMore(events: seq<Event>, d: bool, bytes: seq<byte>)
    ensures SentBy(events + [Up(d, AppSend(bytes))], d) == SentBy(events, d) + bytes
  {
    assert (events + [Up(d, AppSend(bytes))])[..|events|] == events;
  }

  /** Every operation of a copy may fail, and a stream may break as long as it has not ended. */
  lemma AnyMayFail(events: seq<Event>, d: bool, k: nat, code: int)
    requires Run(events).Some?
    ensures var l := LaneOf(Run(events).value, d);
            && (l.up.Reading? ==> Run(events + [Up(d, ReadError)]).Some?)
            && (l.up.Sending? ==> Run(events + [Up(d, SendError)]).Some?)
            && (l.down.Writing? && k <= |l.down.chunk| ==> Run(events + [Down(d, WriteError(k))]).Some?)
            && (l.reader.stop.None? && l.reader.hand.None? ==> Run(events + [Down(d, StreamError(code))]).Some?)
  {
    hide Run;
    var s := Run(events).value;
    forall e | Enabled(s, e)
      ensures Run(events + [e]).Some?
    {
      RunSnoc(events, e);
    }
  }

  /** Once Forward has decided it can return what it has decided. */
  lemma ForwardReturns(events: seq<Event>, d: bool) returns (all: seq<Event>)
    requires Run(events).Some? && !StationOf(Run(events).value, d).main.Waiting?
    ensures events <= all && Run(all).Some?
    ensures StationOf(Run(all).value, d).main == AllClosed(StationOf(Run(events).value, d).main.ok)
  {
    hide Run;
    all := events;
    var s := Run(events).value;
    if StationOf(s, d).main.Deciding? {
      RunSnoc(all, AtMain(d, CloseConn));
      ApplyMain(s, d, CloseConn);
      s := Apply(s, AtMain(d, CloseConn));
      all := all + [AtMain(d, CloseConn)];
    }
    if StationOf(s, d).main.ConnClosed? {
      RunSnoc(all, AtMain(d, CloseStream));
      ApplyMain(s, d, CloseStream);
      all := all + [AtMain(d, CloseStream)];
    }
  }
}
