/**
 Exec: the server copies a process's stdout and stderr into two channels of capacity one, a third
 goroutine merges them into one message stream, and the client takes them apart again. Every step of
 the three server goroutines is one event; the client is the receive loop of client.Exec.
 */
module Exec {
  import opened Bytes

  const UINT32: int := 0x1_0000_0000

  /** CmdProgress, as the server fills it: one field per message. */
  datatype Progress = Stdout(bytes: seq<byte>) | Stderr(bytes: seq<byte>) | ExitCode(code: nat)

  /** One output: the copy goroutine and its channel. */
  datatype Source = Source(
    produced: seq<byte>,             // what the process has written and the copy has read
    hand: Option<seq<byte>>,         // a chunk at `c <- nb`
    chan: seq<seq<byte>>,
    closed: bool)

  datatype Mux = Select | Sending(msg: Progress) | Done

  datatype State = State(
    out: Source,
    err: Source,
    oo: bool,
    eo: bool,
    mux: Mux,
    sent: seq<Progress>,
    finished: bool)                  // the final message has been sent

  const FRESH := Source([], None, [], false)
  const INIT := State(FRESH, FRESH, true, true, Select, [], false)

  datatype Event =
    | Chunk(stdout: bool, bytes: seq<byte>)    // io.Copy reads a chunk
    | Put(stdout: bool)                        // the channel takes it
    | Close(stdout: bool)                      // end of output: close(ch)
    | Receive(stdout: bool)                    // the select takes this case
    | Send
    | Leave                                    // the loop condition is false
    | Finish(code: int)                        // cmd.Wait() and the last Send

  function Of(s: State, stdout: bool): Source {
    if stdout then s.out else s.err
  }

  function With(s: State, stdout: bool, x: Source): State {
    if stdout then s.(out := x) else s.(err := x)
  }

  predicate Enabled(s: State, e: Event) {
    match e
    case Chunk(w, bytes) => Of(s, w).hand.None? && !Of(s, w).closed && bytes != []
    case Put(w) => Of(s, w).hand.Some? && |Of(s, w).chan| < 1
    case Close(w) => Of(s, w).hand.None? && !Of(s, w).closed
    case Receive(w) => s.mux.Select? && (s.oo || s.eo) && (Of(s, w).chan != [] || Of(s, w).closed)
    case Send => s.mux.Sending?
    case Leave => s.mux.Select? && !s.oo && !s.eo
    case Finish(_) => s.mux.Done? && s.out.closed && s.err.closed && !s.finished
  }

  function Apply(s: State, e: Event): State
    requires Enabled(s, e)
  {
    match e
    case Chunk(w, bytes) =>
      var x := Of(s, w);
      With(s, w, x.(produced := x.produced + bytes, hand := Some(bytes)))
    case Put(w) =>
      var x := Of(s, w);
      With(s, w, x.(chan := x.chan + [x.hand.value], hand := None))
    case Close(w) => With(s, w, Of(s, w).(closed := true))
    case Receive(w) =>
      var x := Of(s, w);
      if x.chan != [] then
        With(s, w, x.(chan := x.chan[1..])).(mux := Sending(if w then Stdout(x.chan[0]) else Stderr(x.chan[0])))
      else if w then s.(oo := false) else s.(eo := false)
    case Send => s.(mux := Select, sent := s.sent + [s.mux.msg])
    case Leave => s.(mux := Done)
    // the exit code travels as uint32(ec)
    case Finish(code) => s.(sent := s.sent + [ExitCode(code % UINT32)], finished := true)
  }

  function Run(events: seq<Event>): Option<State> {
    if events == [] then Some(INIT)
    else
      match Run(events[..|events| - 1])
      case None => None
      case Some(s) => if Enabled(s, events[|events| - 1]) then Some(Apply(s, events[|events| - 1])) else None
  }

  // ---- the client ----

  /** The bytes of one output carried by a message. */
  function Part(m: Progress, stdout: bool): seq<byte> {
    match m
    case Stdout(b) => if stdout then b else []
    case Stderr(b) => if stdout then [] else b
    case ExitCode(_) => []
  }

  function Parts(msgs: seq<Progress>, stdout: bool): seq<byte> {
    if msgs == [] then [] else Parts(msgs[..|msgs| - 1], stdout) + Part(msgs[|msgs| - 1], stdout)
  }

  /** The receive loop of client.Exec, with both writers given. The code is that of the last message;
      None stands for the nil dereference the loop ends in when no message came. */
  method Collect(msgs: seq<Progress>) returns (stdout: seq<byte>, stderr: seq<byte>, code: Option<int>)
    ensures stdout == Parts(msgs, true) && stderr == Parts(msgs, false)
    ensures code == if msgs == [] then None
                    else Some(if msgs[|msgs| - 1].ExitCode? then msgs[|msgs| - 1].code else 0)
  {
    stdout, stderr := [], [];
    var last: Option<Progress> := None;
    for i := 0 to |msgs|
      invariant stdout == Parts(msgs[..i], true) && stderr == Parts(msgs[..i], false)
      invariant last == if i == 0 then None else Some(msgs[i - 1])
    {
      var pgrs := msgs[i];
      assert msgs[..i + 1][..i] == msgs[..i];
      if pgrs.Stdout? {
        stdout := stdout + pgrs.bytes;
      }
      if pgrs.Stderr? {
        stderr := stderr + pgrs.bytes;
      }
      last := Some(pgrs);
    }
    assert msgs[..|msgs|] == msgs;
    if last.None? {
      return stdout, stderr, None;
    }
    code := Some(if last.value.ExitCode? then last.value.code else 0);
  }

  // ---- the invariant ----

  function Pending(s: State, stdout: bool): seq<byte> {
    if s.mux.Sending? then Part(s.mux.msg, stdout) else []
  }

  function Hand(x: Source): seq<byte> {
    if x.hand.Some? then x.hand.value else []
  }

  /** Sent, being sent, in the channel and in the copy's hand: together, in order, the output. */
  predicate Conserved(s: State, stdout: bool) {
    var x := Of(s, stdout);
    Parts(s.sent, stdout) + Pending(s, stdout) + Concat(x.chan) + Hand(x) == x.produced
  }

  predicate Ok(s: State) {
    && Conserved(s, true) && Conserved(s, false)
    && |s.out.chan| <= 1 && |s.err.chan| <= 1
    && (s.out.closed ==> s.out.hand.None?) && (s.err.closed ==> s.err.hand.None?)
    && (!s.oo ==> s.out.closed && s.out.chan == [])
    && (!s.eo ==> s.err.closed && s.err.chan == [])
    && (s.mux.Done? ==> !s.oo && !s.eo)
    && (s.finished ==> s.mux.Done? && s.sent != [] && s.sent[|s.sent| - 1].ExitCode?)
  }

  lemma ListParts<T>(a: seq<T>, p: seq<T>, c: seq<T>, h: seq<T>, b: seq<T>)
    ensures a + p + c + [] == a + p + c
    ensures a + p + (c + b) + [] == a + p + c + b
    ensures (a + p) + [] + c + h == a + p + c + h
    ensures a + [] + (b + c) + h == a + b + c + h
  {
  }

  lemma PartsSnoc(msgs: seq<Progress>, m: Progress, stdout: bool)
    ensures Parts(msgs + [m], stdout) == Parts(msgs, stdout) + Part(m, stdout)
  {
    assert (msgs + [m])[..|msgs|] == msgs;
  }

  lemma ChunkKeeps(s: State, w: bool, bytes: seq<byte>, stdout: bool)
    requires Conserved(s, stdout) && Enabled(s, Chunk(w, bytes))
    ensures Conserved(Apply(s, Chunk(w, bytes)), stdout)
  {
    hide Parts, Concat;
    var x := Of(s, stdout);
    ListParts(Parts(s.sent, stdout), Pending(s, stdout), Concat(x.chan), Hand(x), bytes);
  }

  lemma PutKeeps(s: State, w: bool, stdout: bool)
    requires Conserved(s, stdout) && Enabled(s, Put(w))
    ensures Conserved(Apply(s, Put(w)), stdout)
  {
    hide Parts, Concat;
    if w == stdout {
      var x := Of(s, stdout);
      ConcatSnoc(x.chan, x.hand.value);
      ListParts(Parts(s.sent, stdout), Pending(s, stdout), Concat(x.chan), Hand(x), x.hand.value);
    }
  }

  lemma ReceiveKeeps(s: State, w: bool, stdout: bool)
    requires Conserved(s, stdout) && Enabled(s, Receive(w))
    ensures Conserved(Apply(s, Receive(w)), stdout)
  {
    hide Parts, Concat;
    var x := Of(s, stdout);
    if w == stdout && x.chan != [] {
      ConcatFrom(x.chan, 0);
      assert x.chan[0..] == x.chan;
      ListParts(Parts(s.sent, stdout), Pending(s, stdout), Concat(x.chan[1..]), Hand(x), x.chan[0]);
    }
  }

  lemma ConservedKeeps(s: State, e: Event, stdout: bool)
    requires Ok(s) && Enabled(s, e)
    ensures Conserved(Apply(s, e), stdout)
  {
    hide Parts, Concat;
    var x := Of(s, stdout);
    match e
    case Chunk(w, bytes) => ChunkKeeps(s, w, bytes, stdout);
    case Put(w) => PutKeeps(s, w, stdout);
    case Receive(w) => ReceiveKeeps(s, w, stdout);
    case Send =>
      PartsSnoc(s.sent, s.mux.msg, stdout);
      ListParts(Parts(s.sent, stdout), Pending(s, stdout), Concat(x.chan), Hand(x), []);
    case Finish(code) =>
      PartsSnoc(s.sent, ExitCode(code % UINT32), stdout);
      assert Parts(s.sent, stdout) + [] == Parts(s.sent, stdout);
    case _ =>
  }

  lemma StepKeeps(s: State, e: Event)
    requires Ok(s) && Enabled(s, e)
    ensures Ok(Apply(s, e))
  {
    hide Conserved;
    ConservedKeeps(s, e, true);
    ConservedKeeps(s, e, false);
  }

  lemma {:induction false} RunKeeps(events: seq<Event>)
    requires Run(events).Some?
    ensures Ok(Run(events).value)
  {
    if events != [] {
      hide Ok, Enabled, Apply;
      var before := events[..|events| - 1];
      RunKeeps(before);
      StepKeeps(Run(before).value, events[|events| - 1]);
    }
  }

  // ---- what a run says, read off its events alone ----

  /** What the process wrote to one output, chunk by chunk. */
  function OutputIn(events: seq<Event>, stdout: bool): seq<byte> {
    if events == [] then []
    else
      var before, e := events[..|events| - 1], events[|events| - 1];
      if e.Chunk? && e.stdout == stdout then OutputIn(before, stdout) + e.bytes else OutputIn(before, stdout)
  }

  lemma ProducedMoves(s: State, e: Event, stdout: bool)
    requires Enabled(s, e)
    ensures Of(Apply(s, e), stdout).produced ==
            Of(s, stdout).produced + if e.Chunk? && e.stdout == stdout then e.bytes else []
  {
    assert Of(s, stdout).produced + [] == Of(s, stdout).produced;
  }

  lemma {:induction false} ScheduleDecides(events: seq<Event>, stdout: bool)
    requires Run(events).Some?
    ensures Of(Run(events).value, stdout).produced == OutputIn(events, stdout)
  {
    if events != [] {
      hide Apply, Enabled, Of;
      var before := events[..|events| - 1];
      ScheduleDecides(before, stdout);
      ProducedMoves(Run(before).value, events[|events| - 1], stdout);
    } else {
    }
  }

  // ---- theorems about every run ----

  /** When the merging loop is over, both channels are closed and drained and every byte of both
      outputs has been sent, each output in order. */
  lemma LoopExitDrained(events: seq<Event>)
    requires Run(events).Some? && Run(events).value.mux.Done?
    ensures var s := Run(events).value;
            && s.out.closed && s.err.closed && s.out.chan == [] && s.err.chan == []
            && Parts(s.sent, true) == OutputIn(events, true) && Parts(s.sent, false) == OutputIn(events, false)
  {
    hide Run, Parts, OutputIn;
    RunKeeps(events);
    ScheduleDecides(events, true);
    ScheduleDecides(events, false);
    var s := Run(events).value;
    assert Concat(s.out.chan) == [] && Concat(s.err.chan) == [];
    Emptied(Parts(s.sent, true));
    Emptied(Parts(s.sent, false));
  }

  lemma Emptied<T>(a: seq<T>)
    ensures a + [] + [] + [] == a
  {
  }

  /**
   End to end, for every interleaving: after a process that ends with code ec, the client has the
   process's stdout and stderr exactly, and returns ec if and only if 0 <= ec < 2^32; a process
   killed by a signal (ec == -1) is reported as 4294967295.
   */
  method ExecDelivers(events: seq<Event>, ec: int)
      returns (stdout: seq<byte>, stderr: seq<byte>, code: Option<int>)
    requires Run(events).Some? && Enabled(Run(events).value, Finish(ec))
    ensures stdout == OutputIn(events, true) && stderr == OutputIn(events, false)
    ensures code == Some(ec % UINT32)
    ensures code == Some(ec) <==> 0 <= ec < UINT32
  {
    hide Parts, Ok;
    var s := Run(events).value;
    var msgs := Apply(s, Finish(ec)).sent;
    LoopExitDrained(events);
    PartsSnoc(s.sent, ExitCode(ec % UINT32), true);
    PartsSnoc(s.sent, ExitCode(ec % UINT32), false);
    assert Parts(s.sent, true) + [] == Parts(s.sent, true);
    assert Parts(s.sent, false) + [] == Parts(s.sent, false);
    stdout, stderr, code := Collect(msgs);
  }

  /** A step towards the end, when the process writes no more: chunks go into the channels, the channels
      are closed, and the merging loop takes and sends what is there. */
  function Next(s: State): Event {
    if s.mux.Sending? then Send
    else if s.out.hand.Some? && s.out.chan == [] then Put(true)
    else if s.err.hand.Some? && s.err.chan == [] then Put(false)
    else if s.out.hand.None? && !s.out.closed then Close(true)
    else if s.err.hand.None? && !s.err.closed then Close(false)
    else if s.out.chan != [] || s.oo then Receive(true)
    else if s.err.chan != [] || s.eo then Receive(false)
    else Leave
  }

  function Count(x: Source): nat {
    (if x.hand.Some? then 6 else 0) + 4 * |x.chan| + (if x.closed then 0 else 1)
  }

  function Left(s: State): nat {
    (if s.mux.Sending? then 3 else if s.mux.Done? then 0 else 2)
    + Count(s.out) + Count(s.err) + 2 * ((if s.oo then 1 else 0) + (if s.eo then 1 else 0))
  }

  lemma NextHelps(s: State)
    requires Ok(s) && !s.mux.Done?
    ensures Enabled(s, Next(s)) && !Next(s).Chunk?
    ensures var t := Apply(s, Next(s)); Ok(t) && t.finished == s.finished && (t.mux.Done? || Left(t) < Left(s))
  {
    hide Conserved;
    StepKeeps(s, Next(s));
  }

  /** Exec cannot get stuck: from every reachable state, once the process writes no more, the copies and the
      merging loop can run to their end, with both outputs as they were, and the final message can be sent. */
  lemma {:induction false} CanEnd(events: seq<Event>, ec: int) returns (all: seq<Event>)
    requires Run(events).Some? && !Run(events).value.finished
    ensures events <= all && Run(all).Some? && Enabled(Run(all).value, Finish(ec))
    ensures OutputIn(all, true) == OutputIn(events, true) && OutputIn(all, false) == OutputIn(events, false)
    decreases if Run(events).value.mux.Done? then 0 else 1, Left(Run(events).value)
  {
    RunKeeps(events);
    var s := Run(events).value;
    if s.mux.Done? {
      all := events;
    } else {
      NextHelps(s);
      hide Run, Enabled, Ok, Left, Apply, Next;
      Extend(events, s, Next(s));
      all := CanEnd(events + [Next(s)], ec);
    }
  }

  /** A step that lets the copy of this output read again. */
  function Freeing(s: State, stdout: bool): Event {
    if Of(s, stdout).chan == [] then Put(stdout) else if s.mux.Sending? then Send else Receive(stdout)
  }

  /** The process is never held up for good: in every reachable state in which an output is not closed, the
      goroutines can make room so that its next bytes are taken, whichever output it is. */
  lemma {:induction false} CanWrite(events: seq<Event>, stdout: bool, bytes: seq<byte>) returns (all: seq<Event>)
    requires Run(events).Some? && !Of(Run(events).value, stdout).closed && bytes != []
    ensures events <= all && Run(all).Some? && OutputIn(all, stdout) == OutputIn(events, stdout) + bytes
    ensures OutputIn(all, !stdout) == OutputIn(events, !stdout)
    decreases Count(Of(Run(events).value, stdout)) + if Run(events).value.mux.Sending? then 1 else 0
  {
    RunKeeps(events);
    var s := Run(events).value;
    if Of(s, stdout).hand.None? {
      var e := Chunk(stdout, bytes);
      Extend(events, s, e);
      all := events + [e];
    } else {
      FreeingHelps(s, stdout);
      var e := Freeing(s, stdout);
      hide Run, Ok, Apply, Enabled, Count, Freeing;
      Extend(events, s, e);
      all := CanWrite(events + [e], stdout, bytes);
    }
  }

  lemma Extend(events: seq<Event>, s: State, e: Event)
    requires Run(events) == Some(s) && Enabled(s, e)
    ensures Run(events + [e]) == Some(Apply(s, e))
    ensures forall w :: OutputIn(events + [e], w) ==
                        OutputIn(events, w) + if e.Chunk? && e.stdout == w then e.bytes else []
  {
    hide Apply, Enabled;
    assert (events + [e])[..|events|] == events;
    assert forall w :: OutputIn(events, w) + [] == OutputIn(events, w);
  }

  lemma FreeingHelps(s: State, stdout: bool)
    requires Ok(s) && !Of(s, stdout).closed && Of(s, stdout).hand.Some?
    ensures var e := Freeing(s, stdout);
            && Enabled(s, e) && !e.Chunk?
            && var t := Apply(s, e);
            && !Of(t, stdout).closed
            && Count(Of(t, stdout)) + (if t.mux.Sending? then 1 else 0) <
               Count(Of(s, stdout)) + if s.mux.Sending? then 1 else 0
  {
    hide Conserved;
  }
}
