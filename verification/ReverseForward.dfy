/**
 Reverse forwarding: StartReverseForward listens on the device and sends the client one OPEN per
 accepted connection; the client answers each OPEN with a ReverseForward stream that names the
 connection by the address it was sent; StopReverseForward ends a session. Any number of the three
 calls run at once; each critical section and each network action is one event.
 */
module ReverseForward {
  import opened Bytes
  import opened Text

  datatype Kind = Tcp | Udp | Unix

  function Description(kind: Kind): string {
    match kind
    case Tcp => "tcp"
    case Udp => "udp"
    case Unix => "unix"
  }

  /** The key of the session table. */
  function Key(kind: Kind, addr: string): string {
    Description(kind) + ":" + addr
  }

  /** fmt.Sprintf("%s/%d", fwd.Addr, cID). */
  function OpenAddr(addr: string, id: nat): string {
    addr + "/" + Decimal(id)
  }

  /** ReverseForward's reading of that address. */
  function ParseOpen(s: string): Option<(string, nat)> {
    match SplitFirst(s, '/')
    case None => None
    case Some((addr, id)) =>
      match ParseUint(id)
      case None => None
      case Some(n) => Some((addr, n))
  }

  // ---- the address a listener gets ----

  /** What follows the last ":". */
  function LastPart(s: string): (r: string)
    ensures |r| <= |s|
    decreases |s|
  {
    match SplitFirst(s, ':')
    case None => s
    case Some((_, rest)) => LastPart(rest)
  }

  /** A port that net.Listen reads as 0: empty, or a sign or none and zeros. */
  predicate ZeroPort(port: string) {
    ReadDigits(if port != [] && (port[0] == '+' || port[0] == '-') then port[1..] else port) == Some(0)
  }

  /** net.Listen leaves the port to the OS. */
  predicate PicksPort(addr: string) {
    addr == "" || (':' in addr && ZeroPort(LastPart(addr)))
  }

  /** The one address that is replaced by the one the OS chose. */
  const LOCALHOST_ANY := "localhost:0"

  /** The OS address of a listener on `addr`, when the OS chooses `port` where it may choose. */
  function Endpoint(addr: string, port: nat): string {
    if addr == LOCALHOST_ANY then "localhost:" + Decimal(port)
    else if addr == "" then ":" + Decimal(port)
    else if PicksPort(addr) then addr[..|addr| - |LastPart(addr)|] + Decimal(port)
    else addr
  }

  type ConnId = nat

  /** Where a StartReverseForward call is. */
  datatype Pc =
    | Checking        // about to look the address up
    | Listening       // not found; about to build the listener
    | Bound           // listening; about to insert the session
    | Serving         // at lis.Accept()
    | Took(conn: ConnId)     // Accept has returned; about to record the connection
    | Accepted        // the connection is in the map; about to send OPEN
    | Failing         // Send has failed; about to delete the session entry
    | Leaving         // deferred lis.Close() to come
    | Returned

  /** A StartReverseForward call together with the session it creates. */
  datatype Call = Call(
    kind: Kind,
    addr: string,
    bound: string,                   // the OS address of its listener
    pc: Pc,
    open: bool,                      // its listener is open
    cid: nat,                        // the uint64 counter
    conns: map<nat, ConnId>,         // connMap
    accepted: seq<ConnId>,           // connections recorded so far, in order
    opens: seq<string>,              // OPEN messages on their way to the client
    answered: nat,                   // OPEN messages the client has received
    done: set<nat>)                  // identifiers whose forwarding has ended

  /** Where a ReverseForward call is. */
  datatype RpcPc =
    | Arriving
    | Found(session: nat, id: nat)
    | Joined(session: nat, id: nat, conn: ConnId)
    | Finished(session: nat, id: nat, conn: ConnId)
    | Refused

  /** A ReverseForward stream; it answers OPEN number k (from 0) of call `origin`. */
  datatype Rpc = Rpc(origin: nat, k: nat, kind: Kind, addr: string, pc: RpcPc)

  datatype State = State(sessions: map<string, nat>, calls: seq<Call>, rpcs: seq<Rpc>)

  const INIT := State(map[], [], [])

  datatype Event =
    | Start(kind: Kind, addr: string)
    | Check(i: nat)
    | Bind(i: nat, port: nat)            // buildListener succeeds; `port` is what the OS chooses if it may
    | BindFails(i: nat)                  // ... or not, as always for udp and unix
    | Insert(i: nat)
    | AcceptReturns(i: nat, conn: ConnId)
    | Record(i: nat)                     // ss.connMap[cID] = conn
    | SendOpen(i: nat)
    | SendFails(i: nat)
    | Unregister(i: nat)                 // the entry is deleted by its key
    | AcceptFails(i: nat)                // lis.Accept fails: the entry stays
    | Leave(i: nat)                      // deferred lis.Close()
    | Stop(kind: Kind, addr: string)
    | Answer(i: nat)                     // the client receives OPEN and calls ReverseForward
    | FindSession(r: nat)
    | FindConn(r: nat)
    | Finish(r: nat)                     // forwarding is over: delete(ss.connMap, cID)

  function KeyOf(c: Call): string {
    Key(c.kind, c.addr)
  }

  /** The OS lets at most one open listener have an address. */
  predicate Free(s: State, bound: string) {
    forall j :: 0 <= j < |s.calls| && s.calls[j].open ==> s.calls[j].bound != bound
  }

  predicate CallAt(s: State, i: nat, pc: Pc) {
    i < |s.calls| && s.calls[i].pc == pc
  }

  predicate Enabled(s: State, e: Event) {
    match e
    case Start(_, _) => true
    case Check(i) => CallAt(s, i, Checking)
    case Bind(i, port) =>
      // only tcp listeners report a port other than 0
      && CallAt(s, i, Listening) && s.calls[i].kind.Tcp? && 0 < port < 0x1_0000
      && Free(s, Endpoint(s.calls[i].addr, port))
    case BindFails(i) => CallAt(s, i, Listening)
    case Insert(i) => CallAt(s, i, Bound)
    case AcceptReturns(i, _) => CallAt(s, i, Serving) && s.calls[i].open
    case Record(i) => i < |s.calls| && s.calls[i].pc.Took?
    case SendOpen(i) => CallAt(s, i, Accepted)
    case SendFails(i) => CallAt(s, i, Accepted)
    case Unregister(i) => CallAt(s, i, Failing)
    case AcceptFails(i) => CallAt(s, i, Serving)
    case Leave(i) => CallAt(s, i, Leaving)
    case Stop(_, _) => true
    case Answer(i) => i < |s.calls| && s.calls[i].opens != []
    case FindSession(r) => r < |s.rpcs| && s.rpcs[r].pc.Arriving?
    case FindConn(r) => r < |s.rpcs| && s.rpcs[r].pc.Found? && s.rpcs[r].pc.session < |s.calls|
    case Finish(r) => r < |s.rpcs| && s.rpcs[r].pc.Joined? && s.rpcs[r].pc.session < |s.calls|
  }

  function SetCall(s: State, i: nat, c: Call): State
    requires i < |s.calls|
  {
    s.(calls := s.calls[i := c])
  }

  function SetRpc(s: State, r: nat, pc: RpcPc): State
    requires r < |s.rpcs|
  {
    s.(rpcs := s.rpcs[r := s.rpcs[r].(pc := pc)])
  }

  /** StopReverseForward, in one critical section. */
  function Stopped(s: State, key: string): State {
    if key !in s.sessions then s
    else
      var i := s.sessions[key];
      var t := s.(sessions := s.sessions - {key});
      if i < |s.calls| then SetCall(t, i, s.calls[i].(open := false)) else t
  }

  /** The session a stream's address leads to. */
  function Lookup(s: State, rpc: Rpc): RpcPc {
    match ParseOpen(rpc.addr)
    case None => Refused
    case Some((addr, id)) =>
      var key := Key(rpc.kind, addr);
      if key in s.sessions then Found(s.sessions[key], id) else Refused
  }

  function Apply(s: State, e: Event): State
    requires Enabled(s, e)
  {
    match e
    case Start(kind, addr) => s.(calls := s.calls + [Call(kind, addr, "", Checking, false, 0, map[], [], [], 0, {})])
    case Check(i) =>
      SetCall(s, i, s.calls[i].(pc := if KeyOf(s.calls[i]) in s.sessions then Returned else Listening))
    case Bind(i, port) =>
      var c := s.calls[i];
      var bound := Endpoint(c.addr, port);
      var addr := if c.addr == LOCALHOST_ANY then bound else c.addr;
      SetCall(s, i, c.(addr := addr, bound := bound, pc := Bound, open := true))
    case BindFails(i) => SetCall(s, i, s.calls[i].(pc := Returned))
    case Insert(i) =>
      SetCall(s, i, s.calls[i].(pc := Serving)).(sessions := s.sessions[KeyOf(s.calls[i]) := i])
    case AcceptReturns(i, conn) => SetCall(s, i, s.calls[i].(pc := Took(conn)))
    case Record(i) =>
      var c := s.calls[i];
      var id := (c.cid + 1) % UINT64;
      SetCall(s, i, c.(pc := Accepted, cid := id, conns := c.conns[id := c.pc.conn],
                       accepted := c.accepted + [c.pc.conn]))
    case SendOpen(i) =>
      var c := s.calls[i];
      SetCall(s, i, c.(pc := Serving, opens := c.opens + [OpenAddr(c.addr, c.cid)]))
    case SendFails(i) => SetCall(s, i, s.calls[i].(pc := Failing))
    case Unregister(i) =>
      SetCall(s, i, s.calls[i].(pc := Leaving)).(sessions := s.sessions - {KeyOf(s.calls[i])})
    case AcceptFails(i) => SetCall(s, i, s.calls[i].(pc := Leaving))
    case Leave(i) => SetCall(s, i, s.calls[i].(pc := Returned, open := false))
    case Stop(kind, addr) => Stopped(s, Key(kind, addr))
    case Answer(i) =>
      var c := s.calls[i];
      SetCall(s, i, c.(opens := c.opens[1..], answered := c.answered + 1))
        .(rpcs := s.rpcs + [Rpc(i, c.answered, c.kind, c.opens[0], Arriving)])
    case FindSession(r) => SetRpc(s, r, Lookup(s, s.rpcs[r]))
    case FindConn(r) =>
      var pc := s.rpcs[r].pc;
      var conns := s.calls[pc.session].conns;
      SetRpc(s, r, if pc.id in conns then Joined(pc.session, pc.id, conns[pc.id]) else Refused)
    case Finish(r) =>
      var pc := s.rpcs[r].pc;
      var c := s.calls[pc.session];
      var t := SetCall(s, pc.session, c.(conns := c.conns - {pc.id}, done := c.done + {pc.id}));
      SetRpc(t, r, Finished(pc.session, pc.id, pc.conn))
  }

  function Run(events: seq<Event>): Option<State> {
    if events == [] then Some(INIT)
    else
      match Run(events[..|events| - 1])
      case None => None
      case Some(s) => if Enabled(s, events[|events| - 1]) then Some(Apply(s, events[|events| - 1])) else None
  }

  // ---- the address round trip ----

  /** The client's echo leads back to the address and the number it came from when the address
      holds no "/" and the number is a uint64, and is refused as malformed otherwise. */
  lemma OpenAddrRoundTrip(addr: string, id: nat)
    ensures ParseOpen(OpenAddr(addr, id)) == if '/' !in addr && id < UINT64 then Some((addr, id)) else None
  {
    hide Decimal, ReadDigits, SplitFirst;
    var s := OpenAddr(addr, id);
    assert s == addr + ['/'] + Decimal(id);
    SplitJoin(addr, Decimal(id), '/');
    PrintParse(id);
    if '/' in addr {
      SlashStays(addr, Decimal(id));
      NotDigits(SplitFirst(s, '/').value.1, '/');
    }
  }

  /** Splitting at the first of several separators leaves the others in the second part. */
  lemma SlashStays(addr: string, rest: string)
    requires '/' in addr
    ensures var r := SplitFirst(addr + ['/'] + rest, '/'); r.Some? && '/' in r.value.1
  {
    var s := addr + ['/'] + rest;
    assert s[|addr|] == '/';
    var (a, b) := SplitFirst(s, '/').value;
    var i :| 0 <= i < |addr| && addr[i] == '/';
    assert s[i] == '/' && a == s[..|a|];
    assert b[|addr| - |a| - 1] == s[|addr|];
  }
}
