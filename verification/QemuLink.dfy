/**
 Two framed connections joined by a transport: one byte pipe in each direction, every goroutine
 step interleaved. The host side is what ConnBuilder.Accept returns, the guest side what
 PipeConnBuilder.Accept returns; each side then serves any number of goroutines calling Read,
 Write, CloseRead, CloseWrite and Close, next to its own closeConn goroutine.
 */
module QemuLink {
  import opened Bytes
  import opened Framing

  const RDY: seq<byte> := [0x72, 0x64, 0x79]

  datatype Side = Host | Guest

  /** How far the side is with sending its "rdy". */
  datatype Hello = Unsaid | Saying | Said

  /** writeLock: free, or held by a Write or a CloseWrite (possibly the one inside Close). */
  datatype WriteLock = Free | Held(closing: bool, byClose: bool)

  /** Where the one Close call that got past the `closed` flag has arrived. */
  datatype Closer = NotCalled | WantWrite | InWrite | WantRead | WantTransport | Finished

  /** One endpoint: the fields of Conn that its own goroutines share. */
  datatype End = End(
    hello: Hello,
    refused: bool,
    lock: WriteLock,
    closedWrites: bool,
    closedReads: bool,
    closer: Closer,
    broken: bool,              // the bufio.Writer has failed, and stays failed
    writesChanClosed: nat,     // how many times close(writesCloseChan) has run
    readsChanClosed: nat,
    transportClosed: bool)

  /** Where the goroutine holding readLock is. */
  datatype Reading =
    | Greeting(got: seq<byte>)               // io.ReadFull(conn, rdy) of the handshake
    | Idle
    | Header(size: nat, got: seq<byte>)      // inside binary.Read, for a buffer of `size` bytes
    | Body(need: nat, after: nat)            // inside io.ReadFull; q.left becomes `after`

  /** One direction: the sender's stream, the bytes under way, the receiver's position. */
  datatype Pipe = Pipe(
    said: bool,                  // "rdy" has been started
    begun: seq<seq<byte>>,       // payloads of the frames started, in lock order; [] is the close frame
    started: seq<byte>,          // the bytes of the greeting and of those frames
    pend: seq<byte>,             // bytes of the current frame the transport has not taken yet
    sent: seq<byte>,             // everything the transport has taken
    dropped: seq<byte>,          // the end of the frame whose writer failed
    chan: seq<byte>,             // under way
    lost: seq<byte>,             // swallowed by a cut transport
    cut: bool,
    reading: Reading,
    left: nat,                   // q.left of the receiver
    taken: nat,                  // frames whose header the receiver has read
    delivered: seq<byte>,        // bytes copied into Read buffers
    eof: bool,                   // some Read has returned io.EOF for a zero length
    failed: bool)                // some Read has failed on the cut transport

  datatype Link = Link(host: End, guest: End, down: Pipe, up: Pipe)

  const FRESH_END := End(Unsaid, false, Free, false, false, NotCalled, false, 0, 0, false)
  const FRESH_PIPE := Pipe(false, [], [], [], [], [], [], [], false, Greeting([]), 0, 0, [], false, false)
  const INIT := Link(FRESH_END, FRESH_END, FRESH_PIPE, FRESH_PIPE)

  /** What one side sees: its own fields, the pipe it writes and the pipe it reads. */
  datatype View = View(me: End, out: Pipe, inn: Pipe)

  function ViewOf(l: Link, s: Side): View {
    if s.Host? then View(l.host, l.down, l.up) else View(l.guest, l.up, l.down)
  }

  function Update(l: Link, s: Side, v: View): Link {
    if s.Host? then l.(host := v.me, down := v.out, up := v.inn)
    else l.(guest := v.me, up := v.out, down := v.inn)
  }

  datatype Event =
    | SayHello                       // the handshake's conn.Write(rdy) starts
    | HelloSent                      // ... and returns
    | HearHello(k: nat)              // the handshake's io.ReadFull takes k bytes
    | CheckHello                     // bytes.Equal([]byte(rdyMsg), rdy)
    | Push(k: nat)                   // the transport takes k of the pending bytes
    | BeginWrite(payload: seq<byte>) // some goroutine's Write gets writeLock
    | BeginCloseWrite                // some goroutine's CloseWrite gets writeLock
    | EndWrite                       // the holder's Flush returns and the lock is released
    | FailWrite                      // the holder's write fails on a cut transport
    | BeginRead(size: nat)           // some goroutine's Read(b), |b| == size, gets readLock
    | TakeHeader(k: nat)
    | HeaderDone
    | TakeBody(k: nat)
    | BodyDone
    | FailRead                       // the transport has ended: an error comes back
    | CloseRead
    | CallClose                      // Close gets closeLock
    | CloserWrites                   // its CloseWrite gets writeLock
    | CloserReads                    // its CloseRead gets readLock
    | CloserTransport(keepOut: nat, keepIn: nat)
    | Reaper(keepOut: nat, keepIn: nat)        // closeConn after both channels are closed
    | Cut(keep: nat)                 // the transport loses what the side has sent beyond `keep`

  predicate Up(v: View) {
    v.me.hello.Said? && !v.me.refused && !v.inn.reading.Greeting?
  }

  predicate Enabled(s: Side, v: View, e: Event) {
    match e
    case SayHello => v.me.hello.Unsaid? && !v.me.refused && (s.Guest? ==> !v.inn.reading.Greeting?)
    case HelloSent => v.me.hello.Saying? && v.out.pend == []
    case HearHello(k) =>
      && v.inn.reading.Greeting? && !v.me.refused && (s.Host? ==> v.me.hello.Said?)
      && 0 < k <= |v.inn.chan| && |v.inn.reading.got| + k <= |RDY|
    case CheckHello => v.inn.reading.Greeting? && !v.me.refused && |v.inn.reading.got| == |RDY|
    case Push(k) => 0 < k <= |v.out.pend|
    case BeginWrite(_) => Up(v) && v.me.lock.Free?
    case BeginCloseWrite => Up(v) && v.me.lock.Free?
    case EndWrite => v.me.lock.Held? && v.out.pend == []
    case FailWrite => v.me.lock.Held? && v.out.cut && v.out.pend != []
    case BeginRead(_) => Up(v) && v.inn.reading.Idle?
    case TakeHeader(k) => v.inn.reading.Header? && 0 < k <= |v.inn.chan| && |v.inn.reading.got| + k <= 4
    case HeaderDone => v.inn.reading.Header? && |v.inn.reading.got| == 4
    case TakeBody(k) => v.inn.reading.Body? && 0 < k <= |v.inn.chan| && k <= v.inn.reading.need
    case BodyDone => v.inn.reading.Body? && v.inn.reading.need == 0
    case FailRead =>
      && v.inn.cut && v.inn.chan == []
      && ((v.inn.reading.Header? && |v.inn.reading.got| < 4) || (v.inn.reading.Body? && v.inn.reading.need > 0))
    case CloseRead => Up(v) && v.inn.reading.Idle?
    case CallClose => Up(v)
    case CloserWrites => v.me.closer.WantWrite? && v.me.lock.Free?
    case CloserReads => v.me.closer.WantRead? && v.inn.reading.Idle?
    case CloserTransport(_, _) => v.me.closer.WantTransport?
    case Reaper(_, _) => v.me.writesChanClosed > 0 && v.me.readsChanClosed > 0
    case Cut(_) => true
  }

  // ---- steps on one pipe ----

  /** A frame is started: its header and payload go to the buffered writer. */
  function Start(p: Pipe, payload: seq<byte>): Pipe {
    p.(begun := p.begun + [payload], started := p.started + Frame(payload), pend := Frame(payload))
  }

  /** The transport takes k bytes; once cut, they go nowhere. */
  function Take(p: Pipe, k: nat): Pipe
    requires k <= |p.pend|
  {
    var bytes := p.pend[..k];
    var q := p.(pend := p.pend[k..], sent := p.sent + bytes);
    if p.cut then q.(lost := p.lost + bytes) else q.(chan := p.chan + bytes)
  }

  /** The writer gives up: what it still held never reaches the wire. */
  function Abandon(p: Pipe): Pipe {
    p.(pend := [], dropped := p.pend, lost := p.lost + p.pend)
  }

  /** The transport ends; at most `keep` of the bytes under way still arrive. */
  function Sever(p: Pipe, keep: nat): Pipe {
    var k := Min(keep, |p.chan|);
    p.(cut := true, chan := p.chan[..k], lost := p.chan[k..] + p.lost)
  }

  function Hear(p: Pipe, k: nat): Pipe
    requires p.reading.Greeting? && k <= |p.chan|
  {
    p.(reading := Greeting(p.reading.got + p.chan[..k]), chan := p.chan[k..])
  }

  /** Read(b): leftovers of the current frame first, else the next header. */
  function Ask(p: Pipe, size: nat): Pipe {
    var toRead := Min(p.left, size);
    p.(reading := if toRead > 0 then Body(toRead, p.left - toRead) else Header(size, []))
  }

  function GetHeader(p: Pipe, k: nat): Pipe
    requires p.reading.Header? && k <= |p.chan|
  {
    p.(reading := p.reading.(got := p.reading.got + p.chan[..k]), chan := p.chan[k..])
  }

  function UseHeader(p: Pipe): Pipe
    requires p.reading.Header? && |p.reading.got| == 4
  {
    var recd := FromLE32(p.reading.got);
    if recd == 0 then p.(reading := Idle, taken := p.taken + 1, eof := true)
    else
      var toRead := Min(recd, p.reading.size);
      p.(reading := Body(toRead, recd - toRead), taken := p.taken + 1)
  }

  function GetBody(p: Pipe, k: nat): Pipe
    requires p.reading.Body? && k <= |p.chan| && k <= p.reading.need
  {
    p.(reading := p.reading.(need := p.reading.need - k),
       delivered := p.delivered + p.chan[..k], chan := p.chan[k..])
  }

  function EndBody(p: Pipe): Pipe
    requires p.reading.Body?
  {
    p.(reading := Idle, left := p.reading.after)
  }

  /** An error comes back from io.ReadFull or binary.Read; q.left keeps its old value. */
  function Fail(p: Pipe): Pipe {
    p.(reading := Idle, failed := true)
  }

  // ---- steps of one side ----

  /** CloseWrite once it holds writeLock. */
  function StartClose(v: View, byClose: bool): View {
    var me := v.me.(closedWrites := true, lock := Held(true, byClose));
    if v.me.broken then v.(me := me) else v.(me := me, out := Start(v.out, []))
  }

  /** The holder of writeLock returns. */
  function Release(me: End): End
    requires me.lock.Held?
  {
    var closed := if me.lock.closing then me.(writesChanClosed := me.writesChanClosed + 1) else me;
    var next := if me.lock.byClose then closed.(closer := WantRead) else closed;
    next.(lock := Free)
  }

  function MarkReadsClosed(me: End): End {
    if me.closedReads then me
    else me.(closedReads := true, readsChanClosed := me.readsChanClosed + 1)
  }

  function CloseTransport(v: View, keepOut: nat, keepIn: nat): View {
    View(v.me.(transportClosed := true), Sever(v.out, keepOut), Sever(v.inn, keepIn))
  }

  function Local(s: Side, v: View, e: Event): View
    requires Enabled(s, v, e)
  {
    match e
    case SayHello => v.(me := v.me.(hello := Saying), out := v.out.(said := true, started := RDY, pend := RDY))
    case HelloSent => v.(me := v.me.(hello := Said))
    case HearHello(k) => v.(inn := Hear(v.inn, k))
    case CheckHello =>
      if v.inn.reading.got == RDY then v.(inn := v.inn.(reading := Idle))
      else v.(me := v.me.(refused := true))
    case Push(k) => v.(out := Take(v.out, k))
    case BeginWrite(payload) =>
      if v.me.closedWrites || v.me.broken then v
      else v.(me := v.me.(lock := Held(false, false)), out := Start(v.out, payload))
    case BeginCloseWrite => if v.me.closedWrites then v else StartClose(v, false)
    case EndWrite => v.(me := Release(v.me))
    case FailWrite => v.(me := Release(v.me.(broken := true)), out := Abandon(v.out))
    case BeginRead(size) => if v.me.closedReads then v else v.(inn := Ask(v.inn, size))
    case TakeHeader(k) => v.(inn := GetHeader(v.inn, k))
    case HeaderDone => v.(inn := UseHeader(v.inn))
    case TakeBody(k) => v.(inn := GetBody(v.inn, k))
    case BodyDone => v.(inn := EndBody(v.inn))
    case FailRead => v.(inn := Fail(v.inn))
    case CloseRead => v.(me := MarkReadsClosed(v.me))
    case CallClose => if v.me.closer.NotCalled? then v.(me := v.me.(closer := WantWrite)) else v
    case CloserWrites =>
      if v.me.closedWrites then v.(me := v.me.(closer := WantRead))
      else var w := StartClose(v, true); w.(me := w.me.(closer := InWrite))
    case CloserReads => v.(me := MarkReadsClosed(v.me).(closer := WantTransport))
    case CloserTransport(ko, ki) =>
      var w := CloseTransport(v, ko, ki); w.(me := w.me.(closer := Finished))
    case Reaper(ko, ki) => CloseTransport(v, ko, ki)
    case Cut(keep) => v.(out := Sever(v.out, keep))
  }

  // ---- runs ----

  datatype Step = Step(side: Side, event: Event)

  function Apply(l: Link, st: Step): Option<Link> {
    var v := ViewOf(l, st.side);
    if Enabled(st.side, v, st.event) then Some(Update(l, st.side, Local(st.side, v, st.event))) else None
  }

  /** The state after a schedule, None when some step was not possible. */
  function Run(steps: seq<Step>): Option<Link> {
    if steps == [] then Some(INIT)
    else
      match Run(steps[..|steps| - 1])
      case None => None
      case Some(l) => Apply(l, steps[|steps| - 1])
  }

  /**
   What the callers owe the code: no Write of zero bytes or of 2^32 and more, and no Read with an
   empty buffer while bytes of the current frame are still due.
   */
  predicate Disciplined(l: Link, st: Step) {
    match st.event
    case BeginWrite(payload) => Sendable(payload)
    case BeginRead(size) => size > 0 || ViewOf(l, st.side).inn.left == 0
    case _ => true
  }

  predicate DisciplinedRun(steps: seq<Step>) {
    steps == [] ||
    (DisciplinedRun(steps[..|steps| - 1]) &&
     match Run(steps[..|steps| - 1])
     case None => false
     case Some(l) => Disciplined(l, steps[|steps| - 1]))
  }
}
