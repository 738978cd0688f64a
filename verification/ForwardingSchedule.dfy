/**
 A forwarded connection against its schedule: what the applications wrote and which operations failed,
 read off the sequence of events alone, decides what comes out and what the two Forward calls return.
 */
module ForwardingSchedule {
  import opened Bytes
  import SR = StreamReader
  import opened Forwarding
  import opened ForwardingProof

  // ---- what a schedule says ----

  /** The bytes the application of this direction wrote. */
  function SentBy(events: seq<Event>, d: bool): seq<byte> {
    if events == [] then []
    else
      var before, e := events[..|events| - 1], events[|events| - 1];
      if e.Up? && e.lane == d && e.up.AppSend? then SentBy(before, d) + e.up.bytes else SentBy(before, d)
  }

  /** A Read or Write of one of the two copies of this station's Forward call fails. */
  predicate Fails(e: Event, station: bool) {
    || (e.Up? && e.lane == station && (e.up.ReadError? || e.up.SendError?))
    || (e.Down? && e.lane != station && (e.down.WriteError? || e.down.StreamError?))
  }

  predicate Failed(events: seq<Event>, station: bool) {
    exists i :: 0 <= i < |events| && Fails(events[i], station)
  }

  predicate NoFailure(events: seq<Event>) {
    !Failed(events, true) && !Failed(events, false)
  }

  lemma FailedSnoc(before: seq<Event>, e: Event, station: bool)
    ensures Failed(before + [e], station) <==> Failed(before, station) || Fails(e, station)
  {
    var events := before + [e];
    if Failed(before, station) {
      var i :| 0 <= i < |before| && Fails(before[i], station);
      assert events[i] == before[i];
    }
    if Fails(e, station) {
      assert events[|before|] == e;
    }
  }

  lemma InSnoc(before: seq<Event>, e: Event, x: Event)
    ensures x in before + [e] <==> x in before || x == e
  {
  }

  // ---- the two directions and the two stations, by name ----

  lemma ApplyUp(s: Sys, d: bool, e: UpEvent)
    requires Enabled(s, Up(d, e))
    ensures UpEnabled(StationOf(s, d), LaneOf(s, d), e)
    ensures var t := Apply(s, Up(d, e));
            && LaneOf(t, d) == UpLane(StationOf(s, d), LaneOf(s, d), e) && LaneOf(t, !d) == LaneOf(s, !d)
            && StationOf(t, d) == UpStation(StationOf(s, d), LaneOf(s, d), e) && StationOf(t, !d) == StationOf(s, !d)
  {
    hide UpLane, UpStation, UpEnabled, UpClean;
  }

  lemma ApplyDown(s: Sys, d: bool, e: DownEvent)
    requires Enabled(s, Down(d, e))
    ensures DownEnabled(StationOf(s, !d), LaneOf(s, d), e)
    ensures var t := Apply(s, Down(d, e));
            && LaneOf(t, d) == DownLane(StationOf(s, !d), LaneOf(s, d), e) && LaneOf(t, !d) == LaneOf(s, !d)
            && StationOf(t, !d) == DownStation(StationOf(s, !d), LaneOf(s, d), e) && StationOf(t, d) == StationOf(s, d)
  {
    hide DownLane, DownStation, DownEnabled, DownClean;
  }

  lemma ApplyMain(s: Sys, d: bool, e: MainEvent)
    requires Enabled(s, AtMain(d, e))
    ensures MainEnabled(StationOf(s, d), e)
    ensures var t := Apply(s, AtMain(d, e));
            && LaneOf(t, d) == MainOut(LaneOf(s, d), e) && LaneOf(t, !d) == MainIn(LaneOf(s, !d), e)
            && StationOf(t, d) == MainStation(StationOf(s, d), e) && StationOf(t, !d) == StationOf(s, !d)
  {
    hide MainOut, MainIn, MainStation, MainEnabled;
  }

  /** Forward's own steps leave the copies and the streams' readers alone. */
  lemma MainSpares(l: Lane, e: MainEvent)
    ensures var m := MainOut(l, e); m.up == l.up && m.down == l.down && m.reader == l.reader && m.input == l.input
    ensures var m := MainIn(l, e); m.up == l.up && m.down == l.down && m.reader == l.reader && m.input == l.input
    ensures MainOut(l, e).inputEof == MainIn(l, e).inputEof == l.inputEof
  {
  }

  // ---- input ----

  predicate InputFollows(events: seq<Event>, l: Lane, d: bool) {
    && l.input == SentBy(events, d)
    && (l.inputEof <==> Up(d, AppClose) in events)
  }

  lemma UpInput(s: Station, l: Lane, e: UpEvent)
    requires UpEnabled(s, l, e)
    ensures UpLane(s, l, e).input == l.input + if e.AppSend? then e.bytes else []
    ensures UpLane(s, l, e).inputEof <==> l.inputEof || e.AppClose?
  {
    assert l.input + [] == l.input;
  }

  lemma DownInput(s: Station, l: Lane, e: DownEvent)
    requires DownEnabled(s, l, e)
    ensures DownLane(s, l, e).input == l.input && DownLane(s, l, e).inputEof == l.inputEof
  {
    hide SR.Apply, SR.Enabled;
  }

  lemma InputStep(before: seq<Event>, s: Sys, e: Event, d: bool)
    requires Enabled(s, e) && InputFollows(before, LaneOf(s, d), d)
    ensures InputFollows(before + [e], LaneOf(Apply(s, e), d), d)
  {
    hide Apply, Enabled, UpLane, DownLane, MainOut, MainIn, LaneOf, StationOf;
    assert (before + [e])[..|before|] == before;
    InSnoc(before, e, Up(d, AppClose));
    var l := LaneOf(s, d);
    match e
    case Up(lane, u) =>
      ApplyUp(s, lane, u);
      if lane == d {
        UpInput(StationOf(s, d), l, u);
      }
    case Down(lane, w) =>
      ApplyDown(s, lane, w);
      if lane == d {
        DownInput(StationOf(s, !d), l, w);
      }
    case AtMain(st, m) =>
      ApplyMain(s, st, m);
      MainSpares(l, m);
  }

  // ---- failures ----

  /** A copy of this station has ended with an error, or is about to. */
  predicate Trouble(s: Sys, station: bool) {
    var up, in_ := LaneOf(s, station).up, LaneOf(s, !station);
    || (Over(up) && !up.ok)
    || (Over(in_.down) && !in_.down.ok)
    || (in_.reader.stop.Some? && !in_.reader.stop.value.Eof?)
  }

  /** A copy from the stream that ended well ended because the stream did. */
  predicate EndsWithStream(l: Lane) {
    Over(l.down) && l.down.ok ==> l.reader.stop == Some(SR.Eof)
  }

  predicate OutcomeFollows(events: seq<Event>, s: Sys, station: bool) {
    var main := StationOf(s, station).main;
    && (Trouble(s, station) <==> Failed(events, station))
    && EndsWithStream(LaneOf(s, !station))
    && (!main.Waiting? && main.ok <==> AtMain(station, Done) in events)
    && (!main.Waiting? && !main.ok <==> AtMain(station, Err) in events)
    && (!main.Waiting? && !main.ok ==> Failed(events, station))
  }

  lemma UpTrouble(s: Station, l: Lane, e: UpEvent)
    requires UpEnabled(s, l, e)
    ensures var m := UpLane(s, l, e);
            && (Over(m.up) && !m.up.ok <==>
                  (Over(l.up) && !l.up.ok) || e.ReadError? || e.SendError? || (e.CheckWrite? && s.cw))
            && m.down == l.down && m.reader == l.reader && UpStation(s, l, e).main == s.main
  {
  }

  lemma DownTrouble(s: Station, l: Lane, e: DownEvent)
    requires DownEnabled(s, l, e) && SR.Ok(l.reader) && EndsWithStream(l)
    ensures var m := DownLane(s, l, e);
            && ((Over(m.down) && !m.down.ok) || (m.reader.stop.Some? && !m.reader.stop.value.Eof?) <==>
                  || (Over(l.down) && !l.down.ok) || (l.reader.stop.Some? && !l.reader.stop.value.Eof?)
                  || e.WriteError? || e.StreamError? || (e.CallRead? && s.cr))
            && EndsWithStream(m) && m.up == l.up && DownStation(s, l, e).main == s.main
  {
    hide SR.Conserved, SR.Handle;
    match e
    case Reader(ev) =>
      if ev.Receive? {
        ReceivesStop(l.reader, ev);
      } else {
        StopStays(l.reader, ev);
      }
    case StreamError(code) => ReceivesStop(l.reader, SR.Receive(SR.Stop(SR.RpcError(code))));
    case CallRead(size) => StopStays(l.reader, SR.Call(size));
    case ReturnRead => StopStays(l.reader, SR.Collect);
    case _ =>
  }

  lemma ReceivesStop(r: SR.State, e: SR.Event)
    requires SR.Enabled(r, e) && e.Receive?
    ensures r.stop.None? && SR.Apply(r, e).stop == if e.item.Stop? then Some(e.item.error) else None
  {
  }

  lemma UpEnds(s: Station, l: Lane, e: UpEvent)
    requires UpEnabled(s, l, e)
    ensures EndsWithStream(UpLane(s, l, e)) <==> EndsWithStream(l)
  {
  }

  lemma CheckedWriting(s: Station, l: Lane, e: UpEvent)
    requires UpEnabled(s, l, e)
    ensures e.CheckWrite? ==> l.up.Writing?
  {
  }

  /** A closed stream stops a copy only once Forward has decided, and then for an error. */
  lemma ClosedAfterTrouble(s: Station, up: Copy, down: Copy)
    requires StationOk(s, up, down)
    ensures s.cw && up.Writing? ==> !s.main.Waiting? && !s.main.ok
    ensures s.cr && down.Reading? ==> !s.main.Waiting? && !s.main.ok
  {
  }

  lemma StationParts(s: Sys, station: bool)
    requires Inv(s)
    ensures StationOk(StationOf(s, station), LaneOf(s, station).up, LaneOf(s, !station).down)
    ensures LaneOk(LaneOf(s, station)) && SR.Ok(LaneOf(s, station).reader)
  {
    hide SR.Ok, StationOk, UpOk, DownOk, Payloads;
  }

  lemma UpOutcome(before: seq<Event>, s: Sys, e: Event, station: bool)
    requires Inv(s) && Enabled(s, e) && e.Up? && OutcomeFollows(before, s, station)
    ensures OutcomeFollows(before + [e], Apply(s, e), station)
  {
    StationParts(s, station);
    ClosedAfterTrouble(StationOf(s, station), LaneOf(s, station).up, LaneOf(s, !station).down);
    FailedSnoc(before, e, station);
    InSnoc(before, e, AtMain(station, Done));
    InSnoc(before, e, AtMain(station, Err));
    ApplyUp(s, e.lane, e.up);
    hide Inv, Failed, StationOk, LaneOk, SR.Ok, UpLane, UpStation, EndsWithStream, Over, Apply, Enabled, UpEnabled;
    hide LaneOf, StationOf;
    UpTrouble(StationOf(s, e.lane), LaneOf(s, e.lane), e.up);
    UpEnds(StationOf(s, e.lane), LaneOf(s, e.lane), e.up);
    if e.lane == station {
      CheckedWriting(StationOf(s, station), LaneOf(s, station), e.up);
    }
  }

  lemma DownOutcome(before: seq<Event>, s: Sys, e: Event, station: bool)
    requires Inv(s) && Enabled(s, e) && e.Down? && OutcomeFollows(before, s, station)
    requires EndsWithStream(LaneOf(s, e.lane))
    ensures OutcomeFollows(before + [e], Apply(s, e), station)
  {
    StationParts(s, station);
    StationParts(s, e.lane);
    ClosedAfterTrouble(StationOf(s, station), LaneOf(s, station).up, LaneOf(s, !station).down);
    FailedSnoc(before, e, station);
    InSnoc(before, e, AtMain(station, Done));
    InSnoc(before, e, AtMain(station, Err));
    ApplyDown(s, e.lane, e.down);
    assert e.down.CallRead? ==> LaneOf(s, e.lane).down.Reading?;
    hide Inv, Failed, StationOk, LaneOk, SR.Ok, DownLane, DownStation, EndsWithStream, Over, Apply, Enabled;
    hide DownEnabled, LaneOf, StationOf;
    DownTrouble(StationOf(s, !e.lane), LaneOf(s, e.lane), e.down);
  }

  lemma EndsSame(l: Lane, m: Lane)
    requires m.down == l.down && m.reader == l.reader
    ensures EndsWithStream(m) <==> EndsWithStream(l)
  {
  }

  lemma MainMoves(s: Station, e: MainEvent)
    requires MainEnabled(s, e)
    ensures var t := MainStation(s, e);
            && (!t.main.Waiting? && t.main.ok <==> (!s.main.Waiting? && s.main.ok) || e.Done?)
            && (!t.main.Waiting? && !t.main.ok <==> (!s.main.Waiting? && !s.main.ok) || e.Err?)
  {
  }

  /** An error can be taken only from a copy that has failed. */
  lemma ErrMeansTrouble(s: Station, up: Copy, down: Copy)
    requires StationOk(s, up, down) && MainEnabled(s, Err)
    ensures Bad(up) || Bad(down)
  {
  }

  lemma MainOutcome(before: seq<Event>, s: Sys, e: Event, station: bool)
    requires Inv(s) && Enabled(s, e) && e.AtMain? && OutcomeFollows(before, s, station)
    ensures OutcomeFollows(before + [e], Apply(s, e), station)
  {
    StationParts(s, station);
    if e == AtMain(station, Err) {
      ErrMeansTrouble(StationOf(s, station), LaneOf(s, station).up, LaneOf(s, !station).down);
    }
    ApplyMain(s, e.station, e.at);
    hide Inv, Failed, LaneOk, SR.Ok, StationOk, MainStation, MainIn, MainOut, EndsWithStream, Over, Apply, Enabled;
    hide LaneOf, StationOf;
    MainSpares(LaneOf(s, station), e.at);
    MainSpares(LaneOf(s, !station), e.at);
    EndsSame(LaneOf(s, !station), LaneOf(Apply(s, e), !station));
    FailedSnoc(before, e, station);
    InSnoc(before, e, AtMain(station, Done));
    InSnoc(before, e, AtMain(station, Err));
    MainMoves(StationOf(s, e.station), e.at);
  }

  lemma {:induction false} ScheduleDecides(events: seq<Event>, d: bool)
    requires Run(events).Some?
    ensures InputFollows(events, LaneOf(Run(events).value, d), d)
    ensures OutcomeFollows(events, Run(events).value, d)
    ensures OutcomeFollows(events, Run(events).value, !d)
  {
    if events != [] {
      var before, e := events[..|events| - 1], events[|events| - 1];
      assert events == before + [e];
      ScheduleDecides(before, d);
      RunKeeps(before);
      var s := Run(before).value;
      assert EndsWithStream(LaneOf(s, true)) && EndsWithStream(LaneOf(s, false));
      hide Inv, InputFollows, OutcomeFollows, EndsWithStream, Enabled, Apply;
      InputStep(before, s, e, d);
      match e
      case Up(_, _) => UpOutcome(before, s, e, d); UpOutcome(before, s, e, !d);
      case Down(_, _) => DownOutcome(before, s, e, d); DownOutcome(before, s, e, !d);
      case AtMain(_, _) => MainOutcome(before, s, e, d); MainOutcome(before, s, e, !d);
    }
  }

  /** Without failures the run is clean in the sense of the invariant. */
  lemma {:induction false} NoFailureClean(events: seq<Event>)
    requires Run(events).Some? && NoFailure(events)
    ensures Run(events).value.clean
  {
    if events != [] {
      var before, e := events[..|events| - 1], events[|events| - 1];
      assert events == before + [e];
      FailedSnoc(before, e, true);
      FailedSnoc(before, e, false);
      NoFailureClean(before);
      hide Failed, Run, Enabled, UpLane, UpStation, DownLane, DownStation, MainStation, MainIn, MainOut;
      CleanStep(Run(before).value, e);
      RunStep(before, e);
    }
  }

  lemma CleanStep(s: Sys, e: Event)
    requires Enabled(s, e) && s.clean && !Fails(e, true) && !Fails(e, false)
    ensures Apply(s, e).clean
  {
    hide UpLane, UpStation, DownLane, DownStation, MainStation, MainIn, MainOut, UpEnabled, DownEnabled, MainEnabled;
  }

  lemma RunStep(before: seq<Event>, e: Event)
    requires Run(before + [e]).Some?
    ensures Run(before).Some? && Enabled(Run(before).value, e) && Run(before + [e]) == Some(Apply(Run(before).value, e))
  {
    hide Enabled, Apply;
    assert (before + [e])[..|before|] == before;
  }

  // ---- theorems about every run ----

  /** In every reachable state of every run, failures included, each direction's output is a prefix of
      what its application wrote. */
  lemma EndToEndPrefix(events: seq<Event>, d: bool)
    requires Run(events).Some?
    ensures LaneOf(Run(events).value, d).output <= SentBy(events, d)
  {
    hide LaneOk, StationOk, CleanLane, Run, SentBy;
    RunKeeps(events);
    ScheduleDecides(events, d);
    PrefixChain(LaneOf(Run(events).value, d));
  }

  /**
   While nothing has failed, nothing is lost in either direction, whatever the other direction is doing:
   output and bytes in flight are exactly what the application wrote. And the end of file reaches the far
   application only after every byte and only after the near one has half-closed.
   */
  lemma EndToEndClean(events: seq<Event>, d: bool)
    requires Run(events).Some? && NoFailure(events)
    ensures var l := LaneOf(Run(events).value, d);
            && l.output + InFlight(l) == SentBy(events, d)
            && (l.outputClosed ==> l.output == SentBy(events, d) && Up(d, AppClose) in events)
  {
    hide LaneOk, StationOk, CleanLane, Run, InFlight, SentBy, Failed;
    RunKeeps(events);
    NoFailureClean(events);
    ScheduleDecides(events, d);
    var l := LaneOf(Run(events).value, d);
    NothingLost(l);
    ClosedAfterAll(l);
  }

  /**
   What Forward returns, in every schedule: when it can return nil, or has, none of the operations of its
   two copies has failed; when it can return an error, or is to, one of them has. It can return as soon as
   both copies have reported success or one has reported an error. It decides once; "done" and "error
   pending" never hold together; the error channel never overflows; and it closes the endpoints only after
   deciding: until then each half of the connection and of the stream is closed exactly by the copy that is
   over.
   */
  lemma ForwardOutcome(events: seq<Event>, d: bool)
    requires Run(events).Some?
    ensures var s := Run(events).value;
            var st := StationOf(s, d);
            var up, down := LaneOf(s, d).up, LaneOf(s, !d).down;
            && (AtMain(d, Done) in events || Enabled(s, AtMain(d, Done)) ==>
                  !Failed(events, d) && Good(up) && Good(down))
            && (AtMain(d, Err) in events || Enabled(s, AtMain(d, Err)) ==>
                  Failed(events, d) && (Bad(up) || Bad(down)))
            && (!st.main.Waiting? && st.main.ok <==> AtMain(d, Done) in events)
            && (!st.main.Waiting? && !st.main.ok <==> AtMain(d, Err) in events)
            && (st.main.Waiting? && Good(up) && Good(down) ==> Enabled(s, AtMain(d, Done)))
            && (st.main.Waiting? && (Bad(up) || Bad(down)) ==> Enabled(s, AtMain(d, Err)))
            && !(st.wg == 0 && st.errCh > 0)
            && 0 <= st.wg && st.errCh <= 2
            && (st.connClosed <==> st.main.ConnClosed? || st.main.AllClosed?)
            && (st.cw <==> up.Exited? || st.main.AllClosed?)
            && (st.cr <==> down.ClosingWrite? || down.Exited? || st.main.AllClosed?)
            && (st.connReadClosed <==> up.ClosingWrite? || up.Exited?)
  {
    hide LaneOk, CleanLane, Run, Failed, SR.Ok;
    RunKeeps(events);
    ScheduleDecides(events, d);
  }
}
