/**
 A forwarded connection end to end: a connection, a StreamForwarder, a message stream in each
 direction, a StreamForwarder and a connection. Each forwarder is one Forward call with its two
 copy goroutines, its WaitGroup, its error channel and its deferred closes; each stream carries
 ForwardMessages and ends in the Reader of stream.go, whose producer and consumer steps are the
 events of StreamReader. A run is any interleaving of all of them with the two applications.
 */
module Forwarding {
  import opened Bytes
  import SR = StreamReader

  /** ForwardMessage as Writer.Write and CloseWrite build it. */
  datatype Op = Open | Fwd | Close | Announce
  datatype Message = Message(op: Op, payload: seq<byte>)

  function SetBytes(b: seq<byte>): Message {
    Message(Open, b)
  }

  function CloseMsg(): Message {
    Message(Close, [])
  }

  function GetBytes(m: Message): SR.Item {
    if m.op == Close then SR.Stop(SR.Eof) else SR.Data(m.payload)
  }

  /** A copy goroutine: io.Copy, then the report, then the two half-closes. */
  datatype Copy =
    | Reading
    | InRead                       // inside Read of the message stream
    | Writing(chunk: seq<byte>)
    | Sending(chunk: seq<byte>)    // past the `cw` test of ReadWriteCloser.Write
    | Ending(ok: bool)             // io.Copy has returned
    | ClosingRead(ok: bool)
    | ClosingWrite(ok: bool)
    | Exited(ok: bool)

  /** The goroutine that called Forward. */
  datatype Main = Waiting | Deciding(ok: bool) | ConnClosed(ok: bool) | AllClosed(ok: bool)

  /** One Forward(stream, conn) call and the close flags of its two endpoints. */
  datatype Station = Station(
    wg: int,                       // the WaitGroup counter
    errCh: nat,                    // errors in the channel of capacity 2
    main: Main,
    cr: bool,
    cw: bool,
    connReadClosed: bool,
    connClosed: bool)

  /** One direction: application to connection to stream to connection to application. */
  datatype Lane = Lane(
    input: seq<byte>,              // what the application wrote
    inputEof: bool,                // ... and whether it has half-closed
    taken: seq<byte>,              // what the first copy goroutine has read
    unread: seq<byte>,
    up: Copy,
    sent: seq<byte>,               // payload bytes sent on the stream
    fifo: seq<Message>,
    reader: SR.State,
    down: Copy,
    output: seq<byte>,             // what the far application can read
    outputClosed: bool)            // ... followed by end of file

  /** `clean` records that no connection and no stream has failed by itself so far. */
  datatype Sys = Sys(a: Station, b: Station, ab: Lane, ba: Lane, clean: bool)

  const FRESH_STATION := Station(2, 0, Waiting, false, false, false, false)
  const FRESH_LANE := Lane([], false, [], [], Reading, [], [], SR.Start(), Reading, [], false)
  const INIT := Sys(FRESH_STATION, FRESH_STATION, FRESH_LANE, FRESH_LANE, true)

  datatype UpEvent =
    | AppSend(bytes: seq<byte>)
    | AppClose
    | Read(k: nat)                 // conn.Read returns k bytes
    | ReadEof
    | ReadError
    | CheckWrite                   // stream.Write tests cw
    | Send                         // SendMsg
    | SendError
    | Report                       // wg.Done() or ch <- err
    | CloseRead                    // conn.CloseRead()
    | CloseWrite                   // stream.CloseWrite(), sends CLOSE

  datatype DownEvent =
    | CallRead(size: nat)          // stream.Read tests cr and enters Reader.Read
    | Reader(event: SR.Event)      // a step of the Reader's goroutines
    | StreamError(code: int)       // RecvMsg fails
    | ReturnRead
    | Write                        // conn.Write of the whole chunk
    | WriteError(k: nat)           // ... or of k bytes and an error
    | ReportDown
    | CloseReadDown                // stream.CloseRead()
    | CloseWriteDown               // conn.CloseWrite()

  datatype MainEvent =
    | Done                         // the select sees doneCh closed
    | Err                          // the select receives an error
    | CloseConn                    // defer y.Close()
    | CloseStream                  // defer x.Close()

  // ---- the upstream copy: conn to stream ----

  predicate UpEnabled(s: Station, l: Lane, e: UpEvent) {
    match e
    case AppSend(_) => !l.inputEof
    case AppClose => !l.inputEof
    case Read(k) => l.up.Reading? && 0 < k <= |l.unread| && !s.connClosed && !s.connReadClosed
    case ReadEof => l.up.Reading? && l.unread == [] && l.inputEof && !s.connClosed && !s.connReadClosed
    case ReadError => l.up.Reading?
    case CheckWrite => l.up.Writing?
    case Send => l.up.Sending?
    case SendError => l.up.Sending?
    case Report => l.up.Ending?
    case CloseRead => l.up.ClosingRead?
    case CloseWrite => l.up.ClosingWrite?
  }

  function UpLane(s: Station, l: Lane, e: UpEvent): Lane
    requires UpEnabled(s, l, e)
  {
    match e
    case AppSend(bytes) => l.(input := l.input + bytes, unread := l.unread + bytes)
    case AppClose => l.(inputEof := true)
    case Read(k) => l.(up := Writing(l.unread[..k]), taken := l.taken + l.unread[..k], unread := l.unread[k..])
    case ReadEof => l.(up := Ending(true))
    case ReadError => l.(up := Ending(false))
    case CheckWrite => l.(up := if s.cw then Ending(false) else Sending(l.up.chunk))
    case Send => l.(up := Reading, sent := l.sent + l.up.chunk, fifo := l.fifo + [SetBytes(l.up.chunk)])
    case SendError => l.(up := Ending(false))
    case Report => l.(up := ClosingRead(l.up.ok))
    case CloseRead => l.(up := ClosingWrite(l.up.ok))
    case CloseWrite => l.(up := Exited(l.up.ok), fifo := l.fifo + [CloseMsg()])
  }

  function UpStation(s: Station, l: Lane, e: UpEvent): Station
    requires UpEnabled(s, l, e)
  {
    match e
    case Report => if l.up.ok then s.(wg := s.wg - 1) else s.(errCh := s.errCh + 1)
    case CloseRead => s.(connReadClosed := true)
    case CloseWrite => s.(cw := true)
    case _ => s
  }

  /** An error counts as the environment's unless this side had closed the connection itself. */
  predicate UpClean(s: Station, e: UpEvent) {
    match e
    case ReadError => s.connClosed || s.connReadClosed
    case SendError => false
    case _ => true
  }

  // ---- the downstream copy: stream to conn ----

  /** RecvMsg delivers messages in the order they were sent. */
  predicate FromFifo(l: Lane, e: SR.Event) {
    e.Receive? ==> l.fifo != [] && e.item == GetBytes(l.fifo[0])
  }

  predicate DownEnabled(s: Station, l: Lane, e: DownEvent) {
    match e
    case CallRead(_) => l.down.Reading? && l.reader.pc.Idle?
    case Reader(ev) =>
      && !ev.Call? && !ev.Collect? && SR.Enabled(l.reader, ev) && FromFifo(l, ev)
    case StreamError(_) => SR.Enabled(l.reader, SR.Receive(SR.Stop(SR.Eof)))
    case ReturnRead => l.down.InRead? && l.reader.pc.Returned?
    case Write => l.down.Writing? && !s.connClosed
    case WriteError(k) => l.down.Writing? && k <= |l.down.chunk|
    case ReportDown => l.down.Ending?
    case CloseReadDown => l.down.ClosingRead?
    case CloseWriteDown => l.down.ClosingWrite?
  }

  /** io.Copy after a Read: write what came, else stop at end of file or error, else read again. */
  function AfterRead(buf: seq<byte>, err: Option<SR.Error>): Copy {
    if buf != [] then Writing(buf)
    else if err.None? then Reading
    else Ending(err.value.Eof?)
  }

  function DownLane(s: Station, l: Lane, e: DownEvent): Lane
    requires DownEnabled(s, l, e)
  {
    match e
    case CallRead(size) =>
      if s.cr then l.(down := Ending(false))
      else l.(down := InRead, reader := SR.Apply(l.reader, SR.Call(size)))
    case Reader(ev) =>
      var r := SR.Apply(l.reader, ev);
      if ev.Receive? then l.(reader := r, fifo := l.fifo[1..]) else l.(reader := r)
    case StreamError(code) => l.(reader := SR.Apply(l.reader, SR.Receive(SR.Stop(SR.RpcError(code)))))
    case ReturnRead =>
      l.(down := AfterRead(l.reader.buf, l.reader.pc.error), reader := SR.Apply(l.reader, SR.Collect))
    case Write => l.(down := Reading, output := l.output + l.down.chunk)
    case WriteError(k) => l.(down := Ending(false), output := l.output + if s.connClosed then [] else l.down.chunk[..k])
    case ReportDown => l.(down := ClosingRead(l.down.ok))
    case CloseReadDown => l.(down := ClosingWrite(l.down.ok))
    case CloseWriteDown => l.(down := Exited(l.down.ok), outputClosed := true)
  }

  function DownStation(s: Station, l: Lane, e: DownEvent): Station
    requires DownEnabled(s, l, e)
  {
    match e
    case ReportDown => if l.down.ok then s.(wg := s.wg - 1) else s.(errCh := s.errCh + 1)
    case CloseReadDown => s.(cr := true)
    case _ => s
  }

  predicate DownClean(s: Station, e: DownEvent) {
    match e
    case StreamError(_) => false
    case WriteError(_) => s.connClosed
    case _ => true
  }

  // ---- the goroutine that called Forward ----

  predicate MainEnabled(s: Station, e: MainEvent) {
    match e
    case Done => s.main.Waiting? && s.wg == 0
    case Err => s.main.Waiting? && s.errCh > 0
    case CloseConn => s.main.Deciding?
    case CloseStream => s.main.ConnClosed?
  }

  function MainStation(s: Station, e: MainEvent): Station
    requires MainEnabled(s, e)
  {
    match e
    case Done => s.(main := Deciding(true))
    case Err => s.(main := Deciding(false), errCh := s.errCh - 1)
    case CloseConn => s.(main := ConnClosed(s.main.ok), connClosed := true)
    case CloseStream => s.(main := AllClosed(s.main.ok), cr := true, cw := true)
  }

  /** The station's own sending direction, and the one it receives. */
  function MainOut(l: Lane, e: MainEvent): Lane {
    if e.CloseStream? then l.(fifo := l.fifo + [CloseMsg()]) else l
  }

  function MainIn(l: Lane, e: MainEvent): Lane {
    if e.CloseConn? then l.(outputClosed := true) else l
  }

  // ---- runs ----

  datatype Event =
    | Up(lane: bool, up: UpEvent)         // true: the direction from a to b
    | Down(lane: bool, down: DownEvent)
    | AtMain(station: bool, at: MainEvent)  // true: station a

  predicate Enabled(s: Sys, e: Event) {
    match e
    case Up(d, u) => if d then UpEnabled(s.a, s.ab, u) else UpEnabled(s.b, s.ba, u)
    case Down(d, w) => if d then DownEnabled(s.b, s.ab, w) else DownEnabled(s.a, s.ba, w)
    case AtMain(st, m) => if st then MainEnabled(s.a, m) else MainEnabled(s.b, m)
  }

  function Apply(s: Sys, e: Event): Sys
    requires Enabled(s, e)
  {
    match e
    case Up(true, u) =>
      s.(a := UpStation(s.a, s.ab, u), ab := UpLane(s.a, s.ab, u),
         clean := s.clean && UpClean(s.a, u))
    case Up(false, u) =>
      s.(b := UpStation(s.b, s.ba, u), ba := UpLane(s.b, s.ba, u),
         clean := s.clean && UpClean(s.b, u))
    case Down(true, w) =>
      s.(b := DownStation(s.b, s.ab, w), ab := DownLane(s.b, s.ab, w),
         clean := s.clean && DownClean(s.b, w))
    case Down(false, w) =>
      s.(a := DownStation(s.a, s.ba, w), ba := DownLane(s.a, s.ba, w),
         clean := s.clean && DownClean(s.a, w))
    case AtMain(true, m) => s.(a := MainStation(s.a, m), ab := MainOut(s.ab, m), ba := MainIn(s.ba, m))
    case AtMain(false, m) => s.(b := MainStation(s.b, m), ba := MainOut(s.ba, m), ab := MainIn(s.ab, m))
  }

  function Run(events: seq<Event>): Option<Sys> {
    if events == [] then Some(INIT)
    else
      match Run(events[..|events| - 1])
      case None => None
      case Some(s) => if Enabled(s, events[|events| - 1]) then Some(Apply(s, events[|events| - 1])) else None
  }
}
