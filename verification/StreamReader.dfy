/**
 The adapter from a message stream to a byte stream: the goroutine startReads receives messages
 ahead of time into a channel of 256, and Read drains that channel into the caller's buffer.
 Every step of the two goroutines is one event here, so a run is any interleaving of them.
 */
module StreamReader {
  import opened Bytes

  const CAPACITY := 256

  datatype Error = Eof | RpcError(code: int)

  /** What RecvMsg followed by GetBytes yields. */
  datatype Item = Data(payload: seq<byte>) | Stop(error: Error)

  /** Where the goroutine inside Read is. */
  datatype Pc =
    | Idle
    | First(size: nat)                 // about to receive, blocking
    | Drain(size: nat)                 // at the select of the drain loop
    | AwaitError                       // at <-s.errChan
    | Returned(error: Option<Error>)       // Read is back, its buffer not yet used by the caller

  datatype State = State(
    received: seq<byte>,               // payload bytes startReads has received, in order
    hand: Option<seq<byte>>,           // a payload at `s.msgChan <- b`
    stop: Option<Error>,                   // the error that ended startReads' loop
    posted: bool,                      // `s.errChan <- err` has happened
    closed: bool,                      // close(s.msgChan) has happened
    queue: seq<seq<byte>>,             // s.msgChan
    errors: Option<Error>,                 // s.errChan, of capacity 1
    lastRead: seq<byte>,
    pc: Pc,
    buf: seq<byte>,                    // what the current Read has copied: nt == |buf|
    collected: seq<byte>,              // what earlier Reads handed to the caller
    errorsReturned: nat)

  function Start(): State
  {
    State([], None, None, false, false, [], None, [], Idle, [], [], 0)
  }

  datatype Event =
    | Receive(item: Item)           // producer: RecvMsg and GetBytes return
    | Enqueue                          // producer: the channel takes the payload
    | PostError                        // producer: the error channel takes the error
    | CloseQueue                       // producer: close(s.msgChan)
    | Call(size: nat)                  // Read(b) with |b| == size
    | Dequeue                          // Read receives a payload
    | FindClosed                       // Read finds the channel closed and empty
    | Default                          // the select has nothing to receive
    | TakeError                        // Read receives from s.errChan
    | Collect                          // the caller uses what Read returned

  predicate Enabled(s: State, e: Event) {
    match e
    case Receive(_) => s.hand.None? && s.stop.None?
    case Enqueue => s.hand.Some? && |s.queue| < CAPACITY
    case PostError => s.stop.Some? && !s.posted && s.errors.None?
    case CloseQueue => s.posted && !s.closed
    case Call(_) => s.pc.Idle?
    case Dequeue => (s.pc.First? || s.pc.Drain?) && s.queue != [] && |s.buf| <= s.pc.size
    case FindClosed => (s.pc.First? || s.pc.Drain?) && s.queue == [] && s.closed
    case Default => s.pc.Drain? && s.queue == [] && !s.closed
    case TakeError => s.pc.AwaitError? && s.errors.Some?
    case Collect => s.pc.Returned?
  }

  /** handleMsg for a payload: fill the buffer, keep the overflow, return early when it is full. */
  function Handle(s: State, size: nat, rb: seq<byte>): State
    requires |s.buf| <= size
  {
    var n := Min(size - |s.buf|, |rb|);
    var buf := s.buf + rb[..n];
    s.(buf := buf, lastRead := rb[n..], pc := if |buf| == size then Returned(None) else Drain(size))
  }

  function Apply(s: State, e: Event): State
    requires Enabled(s, e)
  {
    match e
    case Receive(Data(b)) => s.(received := s.received + b, hand := Some(b))
    case Receive(Stop(err)) => s.(stop := Some(err))
    case Enqueue => s.(queue := s.queue + [s.hand.value], hand := None)
    case PostError => s.(errors := s.stop, posted := true)
    case CloseQueue => s.(closed := true)
    case Call(size) =>
      if s.lastRead != [] then
        var n := Min(size, |s.lastRead|);
        s.(buf := s.lastRead[..n], lastRead := s.lastRead[n..], pc := Returned(None))
      else s.(pc := First(size))
    case Dequeue => Handle(s.(queue := s.queue[1..]), s.pc.size, s.queue[0])
    case FindClosed => s.(pc := if s.buf == [] then AwaitError else Returned(None))
    case Default => s.(pc := Returned(None))
    case TakeError => s.(pc := Returned(s.errors), errors := None, errorsReturned := s.errorsReturned + 1)
    case Collect => s.(pc := Idle, collected := s.collected + s.buf, buf := [])
  }

  // ---- the invariant ----

  function Hand(s: State): seq<byte> {
    if s.hand.Some? then s.hand.value else []
  }

  /** Nothing is lost, duplicated or reordered on the way from the messages to the caller. */
  predicate Conserved(s: State) {
    s.collected + s.buf + s.lastRead + Concat(s.queue) + Hand(s) == s.received
  }

  predicate Ok(s: State) {
    && Conserved(s)
    && |s.queue| <= CAPACITY
    && (s.pc.Idle? || s.pc.First? || s.pc.AwaitError? ==> s.buf == [])
    && (s.pc.First? || s.pc.AwaitError? ==> s.lastRead == [])
    && (s.pc.Drain? ==> s.lastRead == [] && |s.buf| < s.pc.size)
    && (s.stop.Some? ==> s.hand.None?)
    && (s.posted ==> s.stop.Some?)
    && (s.closed ==> s.posted)
    && (s.pc.AwaitError? ==> s.closed && s.queue == [])
    && s.errorsReturned <= 1
    && (s.errorsReturned == 1 ==> s.posted)
    && s.errors == (if s.posted && s.errorsReturned == 0 then s.stop else None)
    && (s.errorsReturned == 1 ==>
          s.closed && s.queue == [] && s.lastRead == [] && s.collected + s.buf == s.received)
    && (s.pc.Returned? && s.pc.error.Some? ==>
          s.pc.error == s.stop && s.errorsReturned == 1 && s.buf == [])
  }

  // ---- list algebra of the moves ----

  /** A payload moves from the queue to the buffer and the overflow. */
  lemma MoveOut<T>(c: seq<T>, buf: seq<T>, rb: seq<T>, rest: seq<T>, hand: seq<T>, n: nat)
    requires n <= |rb|
    ensures c + (buf + rb[..n]) + rb[n..] + rest + hand == c + buf + [] + (rb + rest) + hand
  {
    assert rb == rb[..n] + rb[n..];
    assert c + (buf + rb[..n]) + rb[n..] + rest == c + buf + [] + (rb + rest);
  }

  lemma MoveIn<T>(a: seq<T>, q: seq<T>, b: seq<T>)
    ensures a + (q + b) + [] == a + q + b
  {
  }

  lemma MoveLast<T>(c: seq<T>, last: seq<T>, q: seq<T>, h: seq<T>, n: nat)
    requires n <= |last|
    ensures c + last[..n] + last[n..] + q + h == c + [] + last + q + h
  {
    assert last == last[..n] + last[n..];
  }

  lemma MoveHome<T>(c: seq<T>, buf: seq<T>, last: seq<T>, q: seq<T>, h: seq<T>)
    ensures (c + buf) + [] + last + q + h == c + buf + last + q + h
  {
  }

  lemma ConservedKeeps(s: State, e: Event)
    requires Ok(s) && Enabled(s, e)
    ensures Conserved(Apply(s, e))
  {
    hide Concat;
    match e
    case Receive(item) =>
      if item.Data? {
        assert Hand(s) == [];
        assert s.collected + s.buf + s.lastRead + Concat(s.queue) + [] == s.received;
      }
    case Enqueue =>
      ConcatSnoc(s.queue, s.hand.value);
      MoveIn(s.collected + s.buf + s.lastRead, Concat(s.queue), s.hand.value);
    case Call(size) =>
      MoveLast(s.collected, s.lastRead, Concat(s.queue), Hand(s), Min(size, |s.lastRead|));
    case Dequeue =>
      ConcatFrom(s.queue, 0);
      assert s.queue[0..] == s.queue;
      MoveOut(s.collected, s.buf, s.queue[0], Concat(s.queue[1..]), Hand(s), Min(s.pc.size - |s.buf|, |s.queue[0]|));
    case Collect => MoveHome(s.collected, s.buf, s.lastRead, Concat(s.queue), Hand(s));
    case _ =>
  }

  /** Every step of either goroutine keeps the invariant. */
  lemma StepKeeps(s: State, e: Event)
    requires Ok(s) && Enabled(s, e)
    ensures Ok(Apply(s, e))
  {
    hide Concat;
    ConservedKeeps(s, e);
    if e.TakeError? {
      Drained(s);
    }
  }

  /** With the channel closed and empty and no leftovers, the caller has everything. */
  lemma Drained(s: State)
    requires Ok(s) && s.closed && s.queue == [] && s.lastRead == []
    ensures s.collected + s.buf == s.received
  {
    assert Concat(s.queue) == [] && Hand(s) == [];
    assert s.collected + s.buf + s.lastRead + [] + [] == s.collected + s.buf;
  }

  // ---- every run ----

  function Run(events: seq<Event>): Option<State> {
    if events == [] then Some(Start())
    else
      match Run(events[..|events| - 1])
      case None => None
      case Some(s) =>
        var e := events[|events| - 1];
        if Enabled(s, e) then Some(Apply(s, e)) else None
  }

  lemma {:induction false} RunKeeps(events: seq<Event>)
    requires Run(events).Some?
    ensures Ok(Run(events).value)
  {
    if events != [] {
      var before := events[..|events| - 1];
      RunKeeps(before);
      StepKeeps(Run(before).value, events[|events| - 1]);
    } else {
      assert Concat<byte>([]) == [];
    }
  }

  // ---- what a run says, read off its events alone ----

  /** The payload bytes the stream yielded, in order. */
  function PayloadsIn(events: seq<Event>): seq<byte> {
    if events == [] then []
    else
      var before, e := events[..|events| - 1], events[|events| - 1];
      if e.Receive? && e.item.Data? then PayloadsIn(before) + e.item.payload else PayloadsIn(before)
  }

  /** The error the stream ended with. */
  function ErrorIn(events: seq<Event>): Option<Error> {
    if events == [] then None
    else
      var e := events[|events| - 1];
      if e.Receive? && e.item.Stop? then Some(e.item.error) else ErrorIn(events[..|events| - 1])
  }

  predicate Follows(events: seq<Event>, s: State) {
    && s.received == PayloadsIn(events)
    && s.stop == ErrorIn(events)
    && (s.closed <==> CloseQueue in events)
    && (s.errorsReturned > 0 <==> TakeError in events)
  }

  lemma ProducerMoves(s: State, e: Event)
    requires Enabled(s, e)
    ensures var t := Apply(s, e);
            && t.received == s.received + (if e.Receive? && e.item.Data? then e.item.payload else [])
            && t.stop == (if e.Receive? && e.item.Stop? then Some(e.item.error) else s.stop)
            && (t.closed <==> s.closed || e == CloseQueue)
            && t.errorsReturned == s.errorsReturned + if e == TakeError then 1 else 0
  {
    hide Min;
    assert s.received + [] == s.received;
    match e
    case Receive(_) =>
    case Dequeue =>
    case CloseQueue =>
    case TakeError =>
    case _ =>
  }

  lemma FollowsStep(before: seq<Event>, s: State, e: Event)
    requires Follows(before, s) && Enabled(s, e)
    ensures Follows(before + [e], Apply(s, e))
  {
    hide Apply, Enabled;
    ProducerMoves(s, e);
    assert (before + [e])[..|before|] == before;
    InSnoc(before, e, CloseQueue);
    InSnoc(before, e, TakeError);
  }

  lemma InSnoc(before: seq<Event>, e: Event, x: Event)
    ensures x in before + [e] <==> x in before || x == e
  {
  }

  /** In every run the bytes received and the error posted are those the stream yielded. */
  lemma {:induction false} ScheduleDecides(events: seq<Event>)
    requires Run(events).Some?
    ensures Follows(events, Run(events).value)
  {
    if events != [] {
      var before, e := events[..|events| - 1], events[|events| - 1];
      ScheduleDecides(before);
      assert events == before + [e];
      hide Follows, Enabled, Apply;
      FollowsStep(before, Run(before).value, e);
    }
  }

  /**
   Refinement of a plain byte stream, for every schedule of the two goroutines, every outcome of the
   select and every buffer size: what the caller has, what Read holds, the leftovers, the queued
   payloads and the payload in the producer's hand are, in this order, the bytes the stream yielded. At
   the select of the drain loop nothing is left over and the buffer has room, and the channel never
   holds more than 256 payloads.
   */
  lemma ReaderRefinesStream(events: seq<Event>)
    requires Run(events).Some?
    ensures var s := Run(events).value;
            && s.collected + s.buf + s.lastRead + Concat(s.queue) + Hand(s) == PayloadsIn(events)
            && (s.pc.Drain? ==> s.lastRead == [] && |s.buf| < s.pc.size)
            && |s.queue| <= 256
  {
    hide Concat, Run, PayloadsIn, ErrorIn;
    RunKeeps(events);
    ScheduleDecides(events);
  }

  /**
   A Read drains the channel: when it returns without an error and with room left in its buffer, it got
   leftovers of an earlier payload or the channel is empty at that moment.
   */
  lemma ReadDrains(events: seq<Event>, e: Event)
    requires Run(events).Some? && Enabled(Run(events).value, e)
    ensures var s, t := Run(events).value, Apply(Run(events).value, e);
            (s.pc.First? || s.pc.Drain?) && t.pc == Returned(None) ==> |t.buf| == s.pc.size || t.queue == []
  {
    hide Run, Conserved;
    RunKeeps(events);
  }

  /** The producer is not held up by a reader that never reads, up to 256 payloads. */
  lemma {:induction false} TakesAhead(payloads: seq<seq<byte>>) returns (events: seq<Event>)
    requires |payloads| <= 256
    ensures Run(events).Some? && Run(events).value.queue == payloads && Run(events).value.pc.Idle?
    ensures PayloadsIn(events) == Concat(payloads) && Run(events).value.hand.None? && Run(events).value.stop.None?
  {
    if payloads == [] {
      events := [];
    } else {
      var before, b := payloads[..|payloads| - 1], payloads[|payloads| - 1];
      events := TakesAhead(before);
      var s := Run(events).value;
      assert payloads == before + [b];
      ConcatSnoc(before, b);
      hide Run, Concat;
      var t := Apply(s, Receive(Data(b)));
      Extend(events, s, Receive(Data(b)), t);
      Extend(events + [Receive(Data(b))], t, Enqueue, Apply(t, Enqueue));
      var es := events + [Receive(Data(b))] + [Enqueue];
      assert es[..|es| - 1] == events + [Receive(Data(b))];
      assert (events + [Receive(Data(b))])[..|events|] == events;
      events := es;
    }
  }

  /**
   The terminating error is never waited for: the Read that first finds nothing left can take it at
   once. It is returned once, with no bytes, it is the one the stream ended with, and by then the caller
   has every byte the stream yielded.
   */
  lemma ErrorDelivery(events: seq<Event>)
    requires Run(events).Some?
    ensures var s := Run(events).value;
            && (s.pc.AwaitError? && s.errorsReturned == 0 ==>
                  Enabled(s, TakeError) && s.collected == PayloadsIn(events))
            && s.errorsReturned <= 1
            && (s.pc.Returned? && s.pc.error.Some? ==>
                  s.pc.error == ErrorIn(events) && s.buf == [] && s.collected == PayloadsIn(events))
  {
    hide Concat, Conserved, Run, PayloadsIn, ErrorIn;
    RunKeeps(events);
    ScheduleDecides(events);
    var s := Run(events).value;
    if s.pc.AwaitError? {
      Drained(s);
      assert s.collected + [] == s.collected;
    }
  }

  // ---- one Read, from its call to its return ----

  /** The state after a continuation, None when some step is not possible. */
  function From(s: State, es: seq<Event>): Option<State>
    decreases |es|
  {
    if es == [] then Some(s)
    else if Enabled(s, es[0]) then From(Apply(s, es[0]), es[1..])
    else None
  }

  /** Steps of the producer and of the Read under way. */
  predicate Within(es: seq<Event>) {
    forall e :: e in es ==> !e.Call? && !e.Collect?
  }

  /** The bytes Read can still get once the channel is closed. */
  function Left(s: State): seq<byte> {
    s.lastRead + Concat(s.queue)
  }

  /** A Read of `size` bytes called with the channel closed, `left` still there and `errors` posted. */
  predicate Late(t: State, left: seq<byte>, size: nat, errors: Option<Error>) {
    && Ok(t) && t.closed
    && match t.pc
       case Idle => false
       case First(n) => n == size && t.buf + Left(t) == left && t.errors == errors
       case Drain(n) => n == size && t.buf + Left(t) == left && t.errors == errors
       case AwaitError => left == [] && t.errors == errors
       case Returned(None) => t.buf != [] && t.buf + Left(t) == left && t.errors == errors
       case Returned(Some(err)) => left == [] && errors == Some(err)
  }

  lemma ListTaken<T>(buf: seq<T>, rb: seq<T>, rest: seq<T>, n: nat)
    requires n <= |rb|
    ensures (buf + rb[..n]) + (rb[n..] + rest) == buf + ([] + (rb + rest))
  {
    assert rb == rb[..n] + rb[n..];
  }

  /** With the channel closed the producer has nothing left to do. */
  lemma LateEvents(t: State, e: Event)
    requires Ok(t) && t.closed && Enabled(t, e) && !e.Call? && !e.Collect?
    ensures e.Dequeue? || e.FindClosed? || e.TakeError?
  {
    hide Conserved;
  }

  lemma LateDequeue(t: State, left: seq<byte>, size: nat, errors: Option<Error>)
    requires Late(t, left, size, errors) && size > 0 && Enabled(t, Dequeue)
    ensures Late(Apply(t, Dequeue), left, size, errors)
  {
    hide Concat, Conserved;
    StepKeeps(t, Dequeue);
    ConcatFrom(t.queue, 0);
    assert t.queue[0..] == t.queue;
    assert t.lastRead == [];
    hide Ok;
    ListTaken(t.buf, t.queue[0], Concat(t.queue[1..]), Min(size - |t.buf|, |t.queue[0]|));
  }

  lemma LateFindClosed(t: State, left: seq<byte>, size: nat, errors: Option<Error>)
    requires Late(t, left, size, errors) && Enabled(t, FindClosed)
    ensures Late(Apply(t, FindClosed), left, size, errors)
  {
    hide Concat, Conserved;
    StepKeeps(t, FindClosed);
    NoChunks(t.queue);
    assert t.lastRead == [];
    hide Ok;
  }

  lemma LateKeeps(t: State, left: seq<byte>, size: nat, errors: Option<Error>, e: Event)
    requires Late(t, left, size, errors) && size > 0 && Enabled(t, e) && !e.Call? && !e.Collect?
    ensures Late(Apply(t, e), left, size, errors)
  {
    hide Concat, Ok, Handle;
    LateEvents(t, e);
    match e
    case Dequeue => LateDequeue(t, left, size, errors);
    case FindClosed => LateFindClosed(t, left, size, errors);
    case TakeError => StepKeeps(t, TakeError);
  }

  lemma NoChunks(queue: seq<seq<byte>>)
    requires queue == []
    ensures Concat(queue) == []
  {
  }

  lemma {:induction false} LateStays(t: State, left: seq<byte>, size: nat, errors: Option<Error>, es: seq<Event>)
    requires Late(t, left, size, errors) && size > 0 && Within(es) && From(t, es).Some?
    ensures Late(From(t, es).value, left, size, errors)
    decreases |es|
  {
    hide Late, Enabled, Apply;
    if es != [] {
      LateKeeps(t, left, size, errors, es[0]);
      LateStays(Apply(t, es[0]), left, size, errors, es[1..]);
    }
  }

  lemma LateStarts(s: State, size: nat)
    requires Ok(s) && s.pc.Idle? && s.closed && size > 0
    ensures Late(Apply(s, Call(size)), Left(s), size, s.errors)
  {
    hide Concat, Conserved;
    StepKeeps(s, Call(size));
    var n := Min(size, |s.lastRead|);
    ListTaken([], s.lastRead, Concat(s.queue), n);
    assert [] + s.lastRead[..n] == s.lastRead[..n];
    assert [] + ([] + (s.lastRead + Concat(s.queue))) == s.lastRead + Concat(s.queue);
  }

  /** The same for a Read with an empty buffer: only an empty channel makes it go for the error. */
  predicate LateEmpty(t: State, nothing: bool, errors: Option<Error>) {
    && Ok(t) && t.closed && t.buf == []
    && match t.pc
       case Idle => false
       case First(n) => n == 0 && (nothing <==> t.queue == []) && t.errors == errors
       case Drain(n) => false
       case AwaitError => nothing && t.errors == errors
       case Returned(None) => !nothing && t.errors == errors
       case Returned(Some(err)) => nothing && errors == Some(err)
  }

  lemma LateEmptyKeeps(t: State, nothing: bool, errors: Option<Error>, e: Event)
    requires LateEmpty(t, nothing, errors) && Enabled(t, e) && !e.Call? && !e.Collect?
    ensures LateEmpty(Apply(t, e), nothing, errors)
  {
    hide Concat, Conserved;
    LateEvents(t, e);
    StepKeeps(t, e);
  }

  lemma {:induction false} LateEmptyStays(t: State, nothing: bool, errors: Option<Error>, es: seq<Event>)
    requires LateEmpty(t, nothing, errors) && Within(es) && From(t, es).Some?
    ensures LateEmpty(From(t, es).value, nothing, errors)
    decreases |es|
  {
    hide LateEmpty, Enabled, Apply;
    if es != [] {
      LateEmptyKeeps(t, nothing, errors, es[0]);
      LateEmptyStays(Apply(t, es[0]), nothing, errors, es[1..]);
    }
  }

  lemma LateEmptyStarts(s: State)
    requires Ok(s) && s.pc.Idle? && s.closed
    ensures LateEmpty(Apply(s, Call(0)), s.lastRead == [] && s.queue == [], s.errors)
  {
    hide Concat, Conserved;
    StepKeeps(s, Call(0));
  }

  /**
   Which Read returns the error, in every run: a Read called after the channel has been closed
   returns it exactly when no byte is left at the call; otherwise it returns a nonempty front of what
   is left and leaves the error for a later Read. With an empty buffer it returns the error exactly
   when there are no leftovers and not even an empty payload is queued.
   */
  lemma ErrorExactly(events: seq<Event>, size: nat, es: seq<Event>, t: State)
    requires Run(events).Some? && Run(events).value.pc.Idle? && CloseQueue in events
    requires Within(es) && From(Apply(Run(events).value, Call(size)), es) == Some(t) && t.pc.Returned?
    ensures var s := Run(events).value;
            && (t.pc.error.Some? <==> if size > 0 then Left(s) == [] else s.lastRead == [] && s.queue == [])
            && (t.pc.error.Some? ==> t.pc.error == ErrorIn(events) && TakeError !in events)
            && (t.pc.error.None? ==> t.buf <= Left(s) && (t.buf == [] <==> size == 0) && t.errors == s.errors)
  {
    hide Run, From, Concat, Conserved, PayloadsIn, ErrorIn;
    RunKeeps(events);
    ScheduleDecides(events);
    var s := Run(events).value;
    if size > 0 {
      LateStarts(s, size);
      LateStays(Apply(s, Call(size)), Left(s), size, s.errors, es);
    } else {
      LateEmptyStarts(s);
      LateEmptyStays(Apply(s, Call(0)), s.lastRead == [] && s.queue == [], s.errors, es);
    }
  }

  // ---- after the error ----

  /**
   In every run a Read at the error channel can go on exactly while the error has not been returned
   before; once it has, no step of either goroutine is possible any more.
   */
  lemma ReadAfterErrorHangs(events: seq<Event>, e: Event)
    requires Run(events).Some? && Run(events).value.pc.AwaitError?
    ensures var s := Run(events).value;
            && (Enabled(s, TakeError) <==> TakeError !in events)
            && (TakeError in events ==> !Enabled(s, e))
  {
    hide Run, Conserved, PayloadsIn, ErrorIn;
    RunKeeps(events);
    ScheduleDecides(events);
  }

  predicate Returns(s: State, es: seq<Event>) {
    Within(es) && From(s, es).Some? && From(s, es).value.pc.Returned?
  }

  lemma ReturnsCons(s: State, e: Event, es: seq<Event>)
    requires Enabled(s, e) && !e.Call? && !e.Collect? && Returns(Apply(s, e), es)
    ensures Returns(s, [e] + es)
  {
    hide Enabled, Apply;
    assert ([e] + es)[1..] == es;
  }

  function Rank(pc: Pc): nat {
    match pc
    case Idle => 0
    case First(_) => 2
    case Drain(_) => 2
    case AwaitError => 1
    case Returned(_) => 0
  }

  /** A step that brings a Read closer to its return. */
  function Next(s: State): Event {
    if s.pc.AwaitError? then TakeError
    else if s.queue != [] then Dequeue
    else if s.closed then FindClosed
    else if s.pc.Drain? then Default
    else if s.hand.Some? then Enqueue
    else if s.stop.None? then Receive(Stop(Eof))
    else if !s.posted then PostError
    else CloseQueue
  }

  function Waiting(s: State): nat {
    |s.queue| + (if s.hand.Some? then 2 else 0)
  }

  function Unsettled(s: State): nat {
    (if s.stop.None? then 1 else 0) + (if s.posted then 0 else 1) + (if s.closed then 0 else 1)
  }

  lemma NextHelps(s: State)
    requires Ok(s) && s.errorsReturned == 0 && (s.pc.First? || s.pc.Drain? || s.pc.AwaitError?)
    ensures Enabled(s, Next(s))
    ensures var t := Apply(s, Next(s));
            && Ok(t) && !t.pc.Idle? && (t.errorsReturned == 0 || t.pc.Returned?)
            && Rank(t.pc) <= Rank(s.pc)
            && (Rank(t.pc) == Rank(s.pc) ==>
                  Waiting(t) < Waiting(s) || (Waiting(t) == Waiting(s) && Unsettled(t) < Unsettled(s)))
  {
    hide Concat, Conserved;
    StepKeeps(s, Next(s));
  }

  lemma {:induction false} CanReturn(s: State) returns (es: seq<Event>)
    requires Ok(s) && !s.pc.Idle? && (s.errorsReturned == 0 || s.pc.Returned?)
    ensures Returns(s, es)
    decreases Rank(s.pc), Waiting(s), Unsettled(s)
  {
    if s.pc.Returned? {
      es := [];
    } else {
      NextHelps(s);
      hide Apply, Ok;
      var more := CanReturn(Apply(s, Next(s)));
      ReturnsCons(s, Next(s), more);
      es := [Next(s)] + more;
    }
  }

  /** A Read called when the error is gone: at the closed, empty channel, then at the error channel. */
  predicate Stuck(s: State) {
    Ok(s) && s.errorsReturned == 1 && (s.pc.First? || s.pc.AwaitError?)
  }

  lemma StuckKeeps(s: State, e: Event)
    requires Stuck(s) && Enabled(s, e) && !e.Call? && !e.Collect?
    ensures Stuck(Apply(s, e))
  {
    hide Conserved;
    StepKeeps(s, e);
  }

  lemma {:induction false} StuckStays(s: State, es: seq<Event>)
    requires Stuck(s)
    ensures !Returns(s, es)
    decreases |es|
  {
    hide Apply, Enabled, Ok;
    if es != [] && Returns(s, es) {
      StuckKeeps(s, es[0]);
      StuckStays(Apply(s, es[0]), es[1..]);
    }
  }

  /**
   The exact condition for calling Read, in every run and for every buffer size: the call can return
   if and only if the terminating error has not been returned before.
   */
  lemma ReadReturnsExactly(events: seq<Event>, size: nat)
    requires Run(events).Some? && Run(events).value.pc.Idle?
    ensures TakeError !in events <==>
              exists es: seq<Event> :: Returns(Apply(Run(events).value, Call(size)), es)
  {
    hide Run, Conserved, Returns, PayloadsIn, ErrorIn;
    RunKeeps(events);
    ScheduleDecides(events);
    var s := Run(events).value;
    var t := Apply(s, Call(size));
    StepKeeps(s, Call(size));
    if s.errorsReturned == 0 {
      var es := CanReturn(t);
      assert Returns(t, es);
    } else {
      assert Stuck(t);
      forall es: seq<Event>
        ensures !Returns(t, es)
      {
        StuckStays(t, es);
      }
    }
  }

  lemma Extend(es: seq<Event>, s: State, e: Event, t: State)
    requires Run(es) == Some(s) && Enabled(s, e) && Apply(s, e) == t
    ensures Run(es + [e]) == Some(t)
  {
    hide Apply, Enabled;
    assert (es + [e])[..|es|] == es;
  }

  /** The state of a stream that ends at once, with Read at `pc`. */
  function Ended(pc: Pc, errors: Option<Error>, returned: nat): State {
    Start().(stop := Some(Eof), posted := true, closed := true, pc := pc, errors := errors, errorsReturned := returned)
  }

  /** The producer's states up to there. */
  function Ending(posted: bool): State {
    Start().(stop := Some(Eof), posted := posted, errors := if posted then Some(Eof) else None)
  }

  lemma EndsAtOnce() returns (es: seq<Event>)
    ensures Run(es) == Some(Ended(Idle, Some(Eof), 0))
  {
    es := [Receive(Stop(Eof))];
    assert Run(es) == Some(Ending(false)) by {
      assert es[..0] == [];
      assert Run([]) == Some(Start());
    }
    hide Run, Handle, Min;
    Extend(es, Ending(false), PostError, Ending(true));
    Extend(es + [PostError], Ending(true), CloseQueue, Ended(Idle, Some(Eof), 0));
    es := es + [PostError] + [CloseQueue];
  }

  lemma CallAtEnd(es: seq<Event>, errors: Option<Error>, returned: nat)
    requires Run(es) == Some(Ended(Idle, errors, returned))
    ensures Run(es + [Call(1)] + [FindClosed]) == Some(Ended(AwaitError, errors, returned))
  {
    hide Run, Handle, Min;
    Extend(es, Ended(Idle, errors, returned), Call(1), Ended(First(1), errors, returned));
    Extend(es + [Call(1)], Ended(First(1), errors, returned), FindClosed, Ended(AwaitError, errors, returned));
  }

  lemma ErrorAtEnd(es: seq<Event>)
    requires Run(es) == Some(Ended(AwaitError, Some(Eof), 0))
    ensures Run(es + [TakeError] + [Collect]) == Some(Ended(Idle, None, 1))
  {
    hide Run, Handle, Min;
    Extend(es, Ended(AwaitError, Some(Eof), 0), TakeError, Ended(Returned(Some(Eof)), None, 1));
    Extend(es + [TakeError], Ended(Returned(Some(Eof)), None, 1), Collect, Ended(Idle, None, 1));
  }

  /** A stream that ends at once: the first Read returns its error, the second one hangs. */
  lemma HangingRun() returns (es: seq<Event>)
    ensures Run(es).Some? && Run(es).value.pc.AwaitError? && Run(es).value.errorsReturned == 1
  {
    hide Run;
    es := EndsAtOnce();
    CallAtEnd(es, Some(Eof), 0);
    es := es + [Call(1)] + [FindClosed];
    ErrorAtEnd(es);
    es := es + [TakeError] + [Collect];
    CallAtEnd(es, None, 1);
    es := es + [Call(1)] + [FindClosed];
  }
}

/** Reader.Read as one goroutine runs it, the producer running whenever the scheduler lets it. */
module StreamReaderMethods {
  import opened Bytes
  import opened StreamReader

  /** What the producer does between two channel operations of Read. */
  datatype Turn = Turn(payloads: seq<seq<byte>>, stop: Option<Error>)

  predicate Nothing(turn: Turn) {
    turn.payloads == [] && turn.stop.None?
  }

  class Reader {
    var lastRead: seq<byte>
    var msgChan: seq<seq<byte>>
    var closed: bool
    var errChan: Option<Error>

    /** Payload bytes put into the channel so far, bytes handed to callers so far, payloads taken out
        of the channel, the producer's error, and whether that has been handed over. */
    ghost var arrived: seq<byte>
    ghost var delivered: seq<byte>
    ghost var taken: nat
    ghost var stopped: Option<Error>
    ghost var finished: bool

    ghost predicate Valid()
      reads this
    {
      && delivered + lastRead + Concat(msgChan) == arrived
      && |msgChan| <= CAPACITY
      && (closed <==> stopped.Some?)
      && (closed && !finished ==> errChan == stopped)
      && (finished ==> closed && msgChan == [] && lastRead == [] && errChan == None)
    }

    constructor ()
      ensures Valid() && arrived == [] && delivered == [] && !closed && !finished
    {
      lastRead, msgChan, closed, errChan := [], [], false, None;
      arrived, delivered, taken, stopped, finished := [], [], 0, None, false;
    }

    /** The producer's turn: the channel takes the first `put` of its payloads, all of them unless it is
        full or closed, and then the producer may post its error and close the channel. */
    method Produce(turn: Turn) returns (ghost put: nat)
      requires Valid()
      modifies `msgChan, `closed, `errChan, `arrived, `stopped
      ensures Valid() && put <= |turn.payloads|
      ensures msgChan == old(msgChan) + turn.payloads[..put]
      ensures arrived == old(arrived) + Concat(turn.payloads[..put])
      ensures put < |turn.payloads| ==> old(closed) || |msgChan| == CAPACITY
      ensures old(closed) ==> put == 0 && errChan == old(errChan) && stopped == old(stopped)
      ensures closed <==> old(closed) || (put == |turn.payloads| && turn.stop.Some?)
      ensures closed && !old(closed) ==> errChan == stopped == turn.stop
    {
      hide Concat;
      put := 0;
      NoPayloads(turn.payloads);
      assert msgChan + [] == msgChan && arrived + [] == arrived;
      if closed {
        return;
      }
      for i := 0 to |turn.payloads|
        invariant Valid() && !closed && put == i
        invariant msgChan == old(msgChan) + turn.payloads[..i]
        invariant arrived == old(arrived) + Concat(turn.payloads[..i])
      {
        if |msgChan| == CAPACITY {
          return;     // blocked at the full channel
        }
        var b := turn.payloads[i];
        assert turn.payloads[..i + 1] == turn.payloads[..i] + [b];
        ConcatSnoc(turn.payloads[..i], b);
        ConcatSnoc(msgChan, b);
        Assoc(delivered + lastRead, Concat(msgChan), b);
        Assoc(old(arrived), Concat(turn.payloads[..i]), b);
        msgChan := msgChan + [b];
        arrived := arrived + b;
        put := put + 1;
      }
      assert turn.payloads[..|turn.payloads|] == turn.payloads;
      if turn.stop.Some? {
        errChan, stopped := turn.stop, turn.stop;
        closed := true;
      }
    }

    static lemma NoPayloads(payloads: seq<seq<byte>>)
      ensures payloads[..0] == [] && Concat(payloads[..0]) == []
    {
    }

    /** Receive a payload and copy it behind the nt bytes already in b; keep the overflow. */
    method Receive(b: array<byte>, nt: nat, ghost before: seq<byte>) returns (n: nat)
      requires Valid() && !finished && lastRead == [] && msgChan != [] && nt <= b.Length
      requires delivered == before + b[..nt]
      modifies `msgChan, `lastRead, `delivered, `taken, b
      ensures Valid() && nt <= n <= b.Length && delivered == before + b[..n]
      ensures msgChan == old(msgChan)[1..] && taken == old(taken) + 1
      ensures n < b.Length ==> lastRead == []
    {
      hide Concat;
      var rb := msgChan[0];
      ConcatFrom(msgChan, 0);
      assert msgChan[0..] == msgChan;
      var k := Min(b.Length - nt, |rb|);
      forall i | 0 <= i < k {
        b[nt + i] := rb[i];
      }
      n := nt + k;
      assert b[..n] == old(b[..nt]) + rb[..k];
      Assoc(before, old(b[..nt]), rb[..k]);
      MoveOut(delivered, [], rb, Concat(msgChan[1..]), [], k);
      delivered := delivered + rb[..k];
      lastRead := rb[k..];
      msgChan, taken := msgChan[1..], taken + 1;
    }

    /**
     Read for any behaviour of the producer between its channel operations (`turns`): the bytes it
     returns continue the stream exactly where the previous Read stopped, and it returns the
     producer's error only when the caller has every byte that ever arrived. `blocked` tells that it
     does not return: nothing came in all the turns, or the error was returned before.
     */
    method Read(b: array<byte>, turns: seq<Turn>) returns (n: nat, err: Option<Error>, blocked: bool)
      requires Valid()
      modifies `lastRead, `msgChan, `closed, `errChan, `arrived, `delivered, `taken, `stopped, `finished, b
      ensures Valid() && n <= b.Length
      ensures blocked <==>
                && old(lastRead) == []
                && (|| old(finished)
                    || (old(msgChan) == [] && !old(closed) && forall i :: 0 <= i < |turns| ==> Nothing(turns[i])))
      ensures blocked ==> n == 0 && err.None? && finished == old(finished) && arrived == old(arrived)
      ensures delivered == old(delivered) + b[..n]
      ensures err.Some? <==> finished && !old(finished)
      ensures err.Some? ==> n == 0 && delivered == arrived && err == stopped
      ensures !blocked && err.None? && old(lastRead) == [] ==> taken > old(taken)
      ensures !blocked && n < b.Length ==> lastRead == [] && (old(lastRead) == [] ==> msgChan == [])
      ensures !blocked && n == 0 < b.Length && closed ==> err.Some?
      ensures old(arrived) <= arrived
      ensures old(lastRead) != [] ==> n == Min(b.Length, |old(lastRead)|) && arrived == old(arrived)
    {
      hide Concat;
      n, err, blocked := 0, None, false;
      if lastRead != [] {
        n := Min(b.Length, |lastRead|);
        forall i | 0 <= i < n {
          b[i] := lastRead[i];
        }
        assert b[..n] == lastRead[..n];
        MoveLast(delivered, lastRead, Concat(msgChan), [], n);
        delivered := delivered + lastRead[..n];
        lastRead := lastRead[n..];
        return;
      }
      ghost var before := delivered;
      assert delivered == before + b[..0];
      var t := Await(turns);
      if msgChan == [] && (!closed || errChan == None) {
        blocked := true;     // at the channel, or at the error channel
        return;
      }
      if msgChan == [] {
        err := TakeError();
        return;
      }
      n := Receive(b, n, before);
      n, err := Drain(b, n, turns[t..], before);
    }

    /** The drain loop: more payloads while there is room and the channel has some. */
    method Drain(b: array<byte>, nt: nat, turns: seq<Turn>, ghost before: seq<byte>)
        returns (n: nat, err: Option<Error>)
      requires Valid() && !finished && nt <= b.Length && (nt < b.Length ==> lastRead == [])
      requires delivered == before + b[..nt]
      modifies `lastRead, `msgChan, `closed, `errChan, `arrived, `delivered, `taken, `stopped, `finished, b
      ensures Valid() && nt <= n <= b.Length && delivered == before + b[..n]
      ensures err.Some? <==> finished
      ensures err.Some? ==> n == 0 && delivered == arrived && err == stopped
      ensures old(arrived) <= arrived && taken >= old(taken)
      ensures n < b.Length ==> lastRead == [] && msgChan == []
      ensures n == 0 < b.Length && closed ==> err.Some?
    {
      hide Concat;
      n, err := nt, None;
      var t := 0;
      while n < b.Length
        invariant Valid() && !finished && nt <= n <= b.Length && t <= |turns|
        invariant old(arrived) <= arrived && delivered == before + b[..n] && taken >= old(taken)
        invariant n < b.Length ==> lastRead == []
        decreases |turns| - t, |msgChan|
      {
        if t < |turns| {
          var _ := Produce(turns[t]);
          t := t + 1;
        }
        if msgChan != [] {
          n := Receive(b, n, before);
        } else if closed {
          if n == 0 {
            err := TakeError();
          }
          return;
        } else {
          return;     // the select's default branch
        }
      }
    }

    /** The first receive waits until the producer has done something. */
    method Await(turns: seq<Turn>) returns (t: nat)
      requires Valid() && lastRead == []
      modifies `msgChan, `closed, `errChan, `arrived, `stopped
      ensures Valid() && t <= |turns| && old(arrived) <= arrived
      ensures msgChan == [] && !closed <==>
                old(msgChan) == [] && !old(closed) && forall i :: 0 <= i < |turns| ==> Nothing(turns[i])
      ensures msgChan == [] && !closed ==> arrived == old(arrived)
      ensures old(closed) ==> msgChan == old(msgChan) && closed && arrived == old(arrived)
    {
      t := 0;
      while t < |turns| && msgChan == [] && !closed
        invariant Valid() && t <= |turns| && old(arrived) <= arrived
        invariant msgChan == [] && !closed <==>
                    old(msgChan) == [] && !old(closed) && forall i :: 0 <= i < t ==> Nothing(turns[i])
        invariant msgChan == [] && !closed ==> arrived == old(arrived)
        invariant old(closed) ==> msgChan == old(msgChan) && closed && arrived == old(arrived)
      {
        var _ := Produce(turns[t]);
        t := t + 1;
      }
    }

    /** Nothing is left: the error is received from its channel. */
    method TakeError() returns (err: Option<Error>)
      requires Valid() && !finished && closed && msgChan == [] && lastRead == []
      modifies `errChan, `finished
      ensures Valid() && finished && err == stopped && err.Some? && delivered == arrived
    {
      err := errChan;
      errChan, finished := None, true;
      NothingLeft();
    }

    lemma NothingLeft()
      requires delivered + lastRead + Concat(msgChan) == arrived && lastRead == [] && msgChan == []
      ensures delivered == arrived
    {
    }
  }
}
