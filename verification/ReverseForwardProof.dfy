/** Registration and pairing in every interleaving of the reverse-forwarding calls. */
module ReverseForwardProof {
  import opened Bytes
  import opened Text
  import opened ReverseForward

  // ---- registration: no assumption on the callers ----

  predicate Early(pc: Pc) {
    pc.Checking? || pc.Listening?
  }

  /** No two open listeners have one OS address. */
  predicate Exclusive(s: State) {
    forall i, j :: 0 <= i < j < |s.calls| && s.calls[i].open && s.calls[j].open ==> s.calls[i].bound != s.calls[j].bound
  }

  predicate TableOk(s: State) {
    forall key :: key in s.sessions ==>
                    && s.sessions[key] < |s.calls|
                    && KeyOf(s.calls[s.sessions[key]]) == key
                    && !Early(s.calls[s.sessions[key]].pc) && !s.calls[s.sessions[key]].pc.Bound?
  }

  /** An open listener has the address its call is registered by, unless the OS chose the port. */
  predicate ListenerOk(c: Call) {
    && (c.pc.Bound? ==> c.open) && (Early(c.pc) || c.pc.Returned? ==> !c.open)
    && (c.open ==> c.kind.Tcp? && c.addr != LOCALHOST_ANY && (PicksPort(c.addr) || c.bound == c.addr))
  }

  predicate ListenersOk(s: State) {
    forall i :: 0 <= i < |s.calls| ==> ListenerOk(s.calls[i])
  }

  predicate Registry(s: State) {
    Exclusive(s) && TableOk(s) && ListenersOk(s)
  }

  lemma ExclusiveKeeps(s: State, e: Event)
    requires Registry(s) && Enabled(s, e)
    ensures Exclusive(Apply(s, e))
  {
    hide OpenAddr, ParseOpen, Key, Lookup, Endpoint, PicksPort;
  }

  /** What a step can do to a call's address, and that a call past binding stays past it. */
  lemma CallMoves(s: State, e: Event, o: nat)
    requires Enabled(s, e) && o < |s.calls|
    ensures var t := Apply(s, e);
            && |s.calls| <= |t.calls|
            && (|t.calls| > |s.calls| ==> e.Start? && |t.calls| == |s.calls| + 1)
            && ((t.calls[o].addr == s.calls[o].addr && KeyOf(t.calls[o]) == KeyOf(s.calls[o])) || (e.Bind? && e.i == o))
            && (!Early(s.calls[o].pc) && !s.calls[o].pc.Bound? ==> !Early(t.calls[o].pc) && !t.calls[o].pc.Bound?)
            && (e == Insert(o) ==> t.calls[o].pc.Serving?)
            && (e.Bind? && e.i == o ==> Early(s.calls[o].pc))
  {
    hide OpenAddr, ParseOpen, Key, Lookup, Free, Endpoint;
  }

  /** What a step can do to the table. */
  lemma SessionMoves(s: State, e: Event, key: string)
    requires Enabled(s, e) && key in Apply(s, e).sessions
    ensures var t := Apply(s, e);
            if e.Insert? && key == KeyOf(s.calls[e.i]) then t.sessions[key] == e.i
            else key in s.sessions && t.sessions[key] == s.sessions[key]
  {
    hide OpenAddr, ParseOpen, Key, Lookup, Free, Endpoint;
  }

  /** Which registrations a step leaves, and where the addresses of calls can change. */
  lemma TableMoves(s: State, e: Event, key: string)
    requires TableOk(s) && Enabled(s, e) && key in Apply(s, e).sessions
    ensures var t := Apply(s, e);
            var i := t.sessions[key];
            && i < |s.calls| <= |t.calls|
            && (e == Insert(i) || (key in s.sessions && s.sessions[key] == i))
            && t.calls[i].addr == s.calls[i].addr && KeyOf(t.calls[i]) == key == KeyOf(s.calls[i])
            && !Early(t.calls[i].pc) && !t.calls[i].pc.Bound?
            && (forall o :: 0 <= o < |s.calls| && KeyOf(t.calls[o]) != KeyOf(s.calls[o]) ==> e.Bind? && e.i == o)
            && (|t.calls| > |s.calls| ==> e.Start? && |t.calls| == |s.calls| + 1)
            && (e.Insert? && e.i != i ==> e.i < |s.calls| && KeyOf(s.calls[e.i]) != key)
  {
    SessionMoves(s, e, key);
    assert e.Insert? ==> e.i < |s.calls|;
    hide Key, Apply, Enabled;
    var t := Apply(s, e);
    CallMoves(s, e, t.sessions[key]);
    forall o | 0 <= o < |s.calls| && KeyOf(t.calls[o]) != KeyOf(s.calls[o])
      ensures e.Bind? && e.i == o
    {
      CallMoves(s, e, o);
    }
  }

  lemma TableKeeps(s: State, e: Event)
    requires Registry(s) && Enabled(s, e)
    ensures TableOk(Apply(s, e))
  {
    hide Key, Apply, Enabled, Exclusive, ListenersOk;
    var t := Apply(s, e);
    forall key | key in t.sessions
      ensures t.sessions[key] < |t.calls| && KeyOf(t.calls[t.sessions[key]]) == key
      ensures !Early(t.calls[t.sessions[key]].pc) && !t.calls[t.sessions[key]].pc.Bound?
    {
      TableMoves(s, e, key);
    }
  }

  /** What a step can do to a listener and the addresses of its call. */
  lemma ListenerMoves(s: State, e: Event, i: nat)
    requires TableOk(s) && Enabled(s, e) && !e.Bind? && i < |Apply(s, e).calls|
    ensures var d := Apply(s, e).calls[i];
            if i < |s.calls| then
              var c := s.calls[i];
              && d.kind == c.kind && d.addr == c.addr && d.bound == c.bound && (d.open ==> c.open)
              && (d.pc.Bound? ==> c.pc.Bound? && d.open == c.open)
              && (Early(d.pc) ==> Early(c.pc)) && (d.pc.Returned? ==> Early(c.pc) || c.pc.Returned? || !d.open)
            else !d.open && Early(d.pc)
  {
    hide OpenAddr, ParseOpen, Key, Lookup, Free, Endpoint, PicksPort;
  }

  lemma BindListens(s: State, e: Event, i: nat)
    requires Enabled(s, e) && e.Bind? && i < |Apply(s, e).calls| && (i < |s.calls| ==> ListenerOk(s.calls[i]))
    ensures ListenerOk(Apply(s, e).calls[i])
  {
    EndpointOk(s.calls[e.i].addr, e.port);
    hide Key, Free, Endpoint, PicksPort;
  }

  lemma ListenerKeeps(s: State, e: Event, i: nat)
    requires TableOk(s) && Enabled(s, e) && i < |Apply(s, e).calls| && (i < |s.calls| ==> ListenerOk(s.calls[i]))
    ensures ListenerOk(Apply(s, e).calls[i])
  {
    hide Apply, Enabled, PicksPort, TableOk;
    if e.Bind? {
      BindListens(s, e, i);
    } else {
      ListenerMoves(s, e, i);
    }
  }

  lemma EndpointOk(addr: string, port: nat)
    requires port > 0
    ensures addr == LOCALHOST_ANY ==> Endpoint(addr, port) != LOCALHOST_ANY
    ensures addr == LOCALHOST_ANY || PicksPort(addr) || Endpoint(addr, port) == addr
  {
    hide LastPart, ZeroPort, Decimal;
    if addr == LOCALHOST_ANY && Endpoint(addr, port) == LOCALHOST_ANY {
      assert Decimal(port) == ("localhost:" + Decimal(port))[|"localhost:"|..] == "0";
      DecimalReads(port);
      ZeroReads();
    }
  }

  lemma ZeroReads()
    ensures ReadDigits("0") == Some(0)
  {
    DecimalReads(0);
  }

  lemma ListenersKeep(s: State, e: Event)
    requires TableOk(s) && ListenersOk(s) && Enabled(s, e)
    ensures ListenersOk(Apply(s, e))
  {
    hide Apply, Enabled, TableOk, ListenerOk;
    forall i | 0 <= i < |Apply(s, e).calls|
      ensures ListenerOk(Apply(s, e).calls[i])
    {
      ListenerKeeps(s, e, i);
    }
  }

  lemma RegistryKeeps(s: State, e: Event)
    requires Registry(s) && Enabled(s, e)
    ensures Registry(Apply(s, e))
  {
    hide Enabled, Apply, Exclusive, TableOk, ListenersOk;
    ExclusiveKeeps(s, e);
    TableKeeps(s, e);
    ListenersKeep(s, e);
  }

  lemma {:induction false} RegistryAlways(events: seq<Event>)
    requires Run(events).Some?
    ensures Registry(Run(events).value)
  {
    if events != [] {
      hide Registry;
      var before := events[..|events| - 1];
      RegistryAlways(before);
      RegistryKeeps(Run(before).value, events[|events| - 1]);
    }
  }

  /** The keys of two addresses agree only when the addresses do. */
  lemma SameKey(a: Call, b: Call)
    requires KeyOf(a) == KeyOf(b)
    ensures a.kind == b.kind && a.addr == b.addr
  {
    assert KeyOf(a) == Description(a.kind) + [':'] + a.addr && KeyOf(b) == Description(b.kind) + [':'] + b.addr;
    SplitUnique(Description(a.kind), a.addr, Description(b.kind), b.addr, ':');
  }

  /** Call i is about to insert its session on `addr` over one whose listener is open. */
  predicate Replaces(s: State, i: nat, addr: string) {
    && Enabled(s, Insert(i)) && s.calls[i].addr == addr
    && KeyOf(s.calls[i]) in s.sessions
    && s.sessions[KeyOf(s.calls[i])] < |s.calls| && s.calls[s.sessions[KeyOf(s.calls[i])]].open
  }

  /**
   Although the test for an existing session and the insertion are separate critical sections, no
   interleaving of any number of calls lets an insertion replace a session whose listener is open,
   on an address that names its port.
   */
  lemma InsertNeverReplacesOpen(events: seq<Event>, i: nat, addr: string)
    requires Run(events).Some? && (!PicksPort(addr) || addr == LOCALHOST_ANY)
    ensures !Replaces(Run(events).value, i, addr)
  {
    hide Run, PicksPort;
    RegistryAlways(events);
    var s := Run(events).value;
    if Replaces(s, i, addr) {
      var j := s.sessions[KeyOf(s.calls[i])];
      SameKey(s.calls[i], s.calls[j]);
    }
  }

  // ---- pairing ----

  /** A call with nothing under way that could still reach a session of its address: it accepts no
      more, holds no connection to record or to announce, no OPEN of it is on its way, and no answer
      is still to be looked up. */
  predicate Quiet(s: State, o: nat)
    requires o < |s.calls|
  {
    && !CanAccept(s.calls[o]) && !s.calls[o].pc.Took? && !s.calls[o].pc.Accepted?
    && s.calls[o].opens == []
    && forall r :: 0 <= r < |s.rpcs| && s.rpcs[r].origin == o ==> !s.rpcs[r].pc.Arriving?
  }

  /** The call can accept another connection, below the 2^64 it may accept. */
  predicate CanAccept(c: Call) {
    c.pc.Serving? && c.open && |c.accepted| + 1 < UINT64
  }

  predicate OthersQuiet(s: State, i: nat)
    requires i < |s.calls|
  {
    forall o :: 0 <= o < |s.calls| && o != i && KeyOf(s.calls[o]) == KeyOf(s.calls[i]) ==> Quiet(s, o)
  }

  /**
   What the pairing needs of the surroundings: the address has no "/", a new session on an address
   starts only when nothing of an earlier session on it is under way, and no session accepts 2^64
   connections.
   */
  predicate Orderly(s: State, e: Event)
    requires Enabled(s, e)
  {
    match e
    case Insert(i) => '/' !in s.calls[i].addr && OthersQuiet(s, i)
    case AcceptReturns(i, _) => |s.calls[i].accepted| + 1 < UINT64
    case _ => true
  }

  /** The books of one session: identifiers 1, 2, 3, ... name the connections in order of arrival,
      each is in the map or done with, and the OPENs on their way name the next ones in order. */
  predicate CallOk(c: Call) {
    && c.cid == |c.accepted| < UINT64
    && c.answered + |c.opens| <= |c.accepted|
    && (c.pc.Serving? || c.pc.Took? ==> c.answered + |c.opens| == |c.accepted|)
    && (c.pc.Took? ==> |c.accepted| + 1 < UINT64)
    && (c.pc.Accepted? ==> c.answered + |c.opens| == |c.accepted| - 1)
    && (forall j :: 0 <= j < |c.opens| ==> c.opens[j] == OpenAddr(c.addr, c.answered + j + 1))
    && (forall id :: id in c.conns ==> 1 <= id <= c.cid && c.conns[id] == c.accepted[id - 1])
    && (forall id :: 1 <= id <= c.cid ==> id in c.conns || id in c.done)
    && (forall id :: id in c.done ==> 1 <= id <= c.answered && id !in c.conns)
    && (Early(c.pc) || c.pc.Bound? ==> c.accepted == [])
  }

  predicate CallsOk(s: State) {
    forall i :: 0 <= i < |s.calls| ==> CallOk(s.calls[i])
  }

  predicate RpcOk(s: State, rpc: Rpc) {
    && rpc.origin < |s.calls|
    && rpc.k < s.calls[rpc.origin].answered && rpc.k < |s.calls[rpc.origin].accepted|
    && rpc.kind == s.calls[rpc.origin].kind
    && rpc.addr == OpenAddr(s.calls[rpc.origin].addr, rpc.k + 1)
    && (rpc.pc.Found? || rpc.pc.Joined? || rpc.pc.Finished? ==>
          rpc.pc.session == rpc.origin && rpc.pc.id == rpc.k + 1)
    && (rpc.pc.Joined? || rpc.pc.Finished? ==> rpc.pc.conn == s.calls[rpc.origin].accepted[rpc.k])
    && (rpc.pc.Finished? <==> rpc.k + 1 in s.calls[rpc.origin].done)
  }

  predicate RpcsOk(s: State) {
    && (forall r :: 0 <= r < |s.rpcs| ==> RpcOk(s, s.rpcs[r]))
    && (forall r, q :: 0 <= r < q < |s.rpcs| && s.rpcs[r].origin == s.rpcs[q].origin ==> s.rpcs[r].k != s.rpcs[q].k)
  }

  predicate NoneRefused(s: State, i: nat) {
    forall r :: 0 <= r < |s.rpcs| && s.rpcs[r].origin == i ==> !s.rpcs[r].pc.Refused?
  }

  predicate SessionsOk(s: State) {
    forall key :: key in s.sessions ==>
                    var i := s.sessions[key];
                    i < |s.calls| && '/' !in s.calls[i].addr && OthersQuiet(s, i) && NoneRefused(s, i)
  }

  /** Only these events change the books of a session, and only of one. */
  predicate Books(e: Event) {
    e.AcceptReturns? || e.Record? || e.SendOpen? || e.Answer? || e.Finish?
  }

  lemma AcceptBooks(s: State, i: nat, conn: ConnId)
    requires i < |s.calls| && CallOk(s.calls[i])
    requires Enabled(s, AcceptReturns(i, conn)) && Orderly(s, AcceptReturns(i, conn))
    ensures CallOk(Apply(s, AcceptReturns(i, conn)).calls[i])
  {
    hide OpenAddr;
  }

  lemma RecordBooks(s: State, i: nat)
    requires i < |s.calls| && CallOk(s.calls[i]) && Enabled(s, Record(i))
    ensures CallOk(Apply(s, Record(i)).calls[i])
  {
    hide OpenAddr;
  }

  lemma SendBooks(s: State, i: nat)
    requires i < |s.calls| && CallOk(s.calls[i]) && Enabled(s, SendOpen(i))
    ensures CallOk(Apply(s, SendOpen(i)).calls[i])
  {
    hide OpenAddr;
  }

  lemma AnswerBooks(s: State, i: nat)
    requires i < |s.calls| && CallOk(s.calls[i]) && Enabled(s, Answer(i))
    ensures CallOk(Apply(s, Answer(i)).calls[i])
  {
    hide OpenAddr;
    var c, d := s.calls[i], Apply(s, Answer(i)).calls[i];
    assert forall j :: 0 <= j < |d.opens| ==> d.opens[j] == c.opens[j + 1];
  }

  lemma FinishBooks(s: State, r: nat)
    requires Enabled(s, Finish(r)) && CallOk(s.calls[s.rpcs[r].pc.session]) && RpcOk(s, s.rpcs[r])
    ensures CallOk(Apply(s, Finish(r)).calls[s.rpcs[r].pc.session])
  {
    hide OpenAddr;
  }

  lemma CallsKeep(s: State, e: Event)
    requires CallsOk(s) && RpcsOk(s) && Enabled(s, e) && Orderly(s, e)
    ensures CallsOk(Apply(s, e))
  {
    hide ParseOpen, Key, Lookup, Quiet, OpenAddr;
    var t := Apply(s, e);
    match e
    case AcceptReturns(i, conn) => AcceptBooks(s, i, conn);
    case Record(i) => RecordBooks(s, i);
    case SendOpen(i) => SendBooks(s, i);
    case Answer(i) => AnswerBooks(s, i);
    case Finish(r) => FinishBooks(s, r);
    case _ => OtherBooks(s, e);
  }

  /** A call may move on without its books changing. */
  predicate Moves(c: Call, d: Call) {
    && d.cid == c.cid && d.accepted == c.accepted && d.answered == c.answered && d.opens == c.opens
    && d.conns == c.conns && d.done == c.done && (d.addr == c.addr || Early(c.pc))
    && (d.pc.Serving? ==> c.pc.Serving? || c.pc.Bound?)
    && (d.pc.Accepted? ==> c.pc.Accepted?) && (d.pc.Took? ==> c.pc.Took?)
    && (Early(d.pc) || d.pc.Bound? ==> Early(c.pc) || c.pc.Bound?)
  }

  lemma MovesKeep(c: Call, d: Call)
    requires CallOk(c) && Moves(c, d)
    ensures CallOk(d)
  {
    hide OpenAddr;
  }

  lemma OtherMoves(s: State, e: Event, j: nat)
    requires Enabled(s, e) && !Books(e) && j < |s.calls|
    ensures |s.calls| <= |Apply(s, e).calls| && Moves(s.calls[j], Apply(s, e).calls[j])
  {
    hide ParseOpen, Key, Lookup, OpenAddr, Free, Endpoint;
  }

  lemma OtherBooks(s: State, e: Event)
    requires CallsOk(s) && Enabled(s, e) && !Books(e)
    ensures CallsOk(Apply(s, e))
  {
    hide ParseOpen, Key, Lookup, OpenAddr, Free, Endpoint, Moves;
    var t := Apply(s, e);
    forall j | 0 <= j < |t.calls|
      ensures CallOk(t.calls[j])
    {
      if j < |s.calls| {
        OtherMoves(s, e, j);
        MovesKeep(s.calls[j], t.calls[j]);
      }
    }
  }

  /** How a call may change under the streams that answer it. */
  predicate Extends(c: Call, d: Call) {
    && d.kind == c.kind && (c.answered > 0 ==> d.addr == c.addr)
    && c.answered <= d.answered && c.accepted <= d.accepted && d.done == c.done
  }

  predicate CallsExtend(s: State, t: State) {
    |s.calls| <= |t.calls| && forall i :: 0 <= i < |s.calls| ==> Extends(s.calls[i], t.calls[i])
  }

  lemma CallsOnlyExtend(s: State, e: Event)
    requires CallsOk(s) && Enabled(s, e) && !e.Finish?
    ensures CallsExtend(s, Apply(s, e))
  {
    hide Apply, Enabled, Extends, CallOk;
    var t := Apply(s, e);
    assert |s.calls| <= |t.calls| by {
      NoFewerCalls(s, e);
    }
    forall i | 0 <= i < |s.calls|
      ensures Extends(s.calls[i], t.calls[i])
    {
      CallOnlyExtends(s, e, i);
    }
  }

  lemma NoFewerCalls(s: State, e: Event)
    requires Enabled(s, e)
    ensures |s.calls| <= |Apply(s, e).calls|
  {
    hide ParseOpen, Key, Lookup, OpenAddr, Free, Endpoint;
  }

  lemma CallOnlyExtends(s: State, e: Event, i: nat)
    requires Enabled(s, e) && !e.Finish? && i < |s.calls| <= |Apply(s, e).calls| && CallOk(s.calls[i])
    ensures Extends(s.calls[i], Apply(s, e).calls[i])
  {
    hide ParseOpen, Key, Lookup, OpenAddr, Free, Endpoint;
  }

  lemma RpcStays(s: State, t: State, rpc: Rpc)
    requires RpcOk(s, rpc) && CallsExtend(s, t)
    ensures RpcOk(t, rpc)
  {
    hide OpenAddr;
  }

  lemma RpcsStay(s: State, t: State)
    requires RpcsOk(s) && CallsExtend(s, t)
    ensures forall r :: 0 <= r < |s.rpcs| ==> RpcOk(t, s.rpcs[r])
  {
    hide RpcOk, CallsExtend;
    forall r | 0 <= r < |s.rpcs|
      ensures RpcOk(t, s.rpcs[r])
    {
      RpcStays(s, t, s.rpcs[r]);
    }
  }

  lemma AnswerRpc(s: State, i: nat)
    requires CallsOk(s) && RpcsOk(s) && Enabled(s, Answer(i))
    ensures RpcsOk(Apply(s, Answer(i)))
  {
    hide OpenAddr;
    var t := Apply(s, Answer(i));
    CallsOnlyExtend(s, Answer(i));
    RpcsStay(s, t);
    var c, n := s.calls[i], |s.rpcs|;
    assert c.opens[0] == OpenAddr(c.addr, c.answered + 0 + 1);
    assert c.answered + 1 !in c.done;
    assert RpcOk(t, t.rpcs[n]);
  }

  /** A stream may be refused, find its own session, or be joined to its own connection. */
  predicate MayBecome(s: State, rpc: Rpc, pc: RpcPc) {
    || pc.Refused?
    || pc == Found(rpc.origin, rpc.k + 1)
    || (&& rpc.origin < |s.calls| && rpc.k < |s.calls[rpc.origin].accepted|
        && pc == Joined(rpc.origin, rpc.k + 1, s.calls[rpc.origin].accepted[rpc.k]))
  }

  lemma BecomesOk(s: State, t: State, rpc: Rpc, pc: RpcPc)
    requires RpcOk(s, rpc) && t.calls == s.calls && !rpc.pc.Finished? && MayBecome(s, rpc, pc)
    ensures RpcOk(t, rpc.(pc := pc))
  {
    hide OpenAddr;
  }

  lemma ConnMayJoin(s: State, rpc: Rpc)
    requires CallsOk(s) && RpcOk(s, rpc) && rpc.pc.Found?
    ensures var conns := s.calls[rpc.pc.session].conns;
            rpc.pc.id in conns ==> MayBecome(s, rpc, Joined(rpc.pc.session, rpc.pc.id, conns[rpc.pc.id]))
  {
    hide OpenAddr;
    assert CallOk(s.calls[rpc.origin]);
  }

  lemma FoundSession(s: State, r: nat)
    requires Enabled(s, FindSession(r)) && RpcOk(s, s.rpcs[r])
    requires Lookup(s, s.rpcs[r]) in {Refused, Found(s.rpcs[r].origin, s.rpcs[r].k + 1)}
    ensures RpcOk(Apply(s, FindSession(r)), Apply(s, FindSession(r)).rpcs[r])
  {
    hide Lookup, RpcOk;
    BecomesOk(s, Apply(s, FindSession(r)), s.rpcs[r], Lookup(s, s.rpcs[r]));
  }

  lemma FoundConn(s: State, r: nat)
    requires CallsOk(s) && Enabled(s, FindConn(r)) && RpcOk(s, s.rpcs[r])
    ensures RpcOk(Apply(s, FindConn(r)), Apply(s, FindConn(r)).rpcs[r])
  {
    ConnMayJoin(s, s.rpcs[r]);
    hide RpcOk, CallsOk;
    var t := Apply(s, FindConn(r));
    assert MayBecome(s, s.rpcs[r], t.rpcs[r].pc);
    hide MayBecome;
    BecomesOk(s, t, s.rpcs[r], t.rpcs[r].pc);
  }

  lemma FindRpc(s: State, e: Event)
    requires CallsOk(s) && RpcsOk(s) && Enabled(s, e) && (e.FindSession? || e.FindConn?)
    requires e.FindSession? ==> Lookup(s, s.rpcs[e.r]) in {Refused, Found(s.rpcs[e.r].origin, s.rpcs[e.r].k + 1)}
    ensures RpcsOk(Apply(s, e))
  {
    hide OpenAddr, Lookup, RpcOk, CallOk, Key, Free, Endpoint;
    var t := Apply(s, e);
    if e.FindSession? {
      FoundSession(s, e.r);
    } else {
      FoundConn(s, e.r);
    }
    forall r | 0 <= r < |t.rpcs|
      ensures RpcOk(t, t.rpcs[r])
    {
      if r != e.r {
        assert RpcOk(s, s.rpcs[r]);
        RpcStays(s, t, s.rpcs[r]);
      }
    }
  }

  lemma FinishRpc(s: State, f: nat)
    requires CallsOk(s) && RpcsOk(s) && Enabled(s, Finish(f))
    ensures RpcsOk(Apply(s, Finish(f)))
  {
    hide OpenAddr, CallOk;
    var t := Apply(s, Finish(f));
    assert RpcOk(s, s.rpcs[f]);
    forall r | 0 <= r < |t.rpcs|
      ensures RpcOk(t, t.rpcs[r])
    {
      assert RpcOk(s, s.rpcs[r]);
    }
  }

  lemma RpcsKeep(s: State, e: Event)
    requires CallsOk(s) && RpcsOk(s) && Enabled(s, e)
    requires e.FindSession? ==> Lookup(s, s.rpcs[e.r]) in {Refused, Found(s.rpcs[e.r].origin, s.rpcs[e.r].k + 1)}
    ensures RpcsOk(Apply(s, e))
  {
    hide OpenAddr, Lookup, RpcOk, CallOk, CallsExtend, Key;
    match e
    case Answer(i) => AnswerRpc(s, i);
    case FindSession(_) => FindRpc(s, e);
    case FindConn(_) => FindRpc(s, e);
    case Finish(r) => FinishRpc(s, r);
    case _ =>
      CallsOnlyExtend(s, e);
      RpcsStay(s, Apply(s, e));
  }

  // ---- registered sessions ----

  /** A stream's address leads to its own session or, once that is gone, nowhere. */
  lemma LookupFindsOrigin(s: State, r: nat)
    requires Registry(s) && CallsOk(s) && RpcsOk(s) && SessionsOk(s) && Enabled(s, FindSession(r))
    ensures var rpc := s.rpcs[r];
            var key := KeyOf(s.calls[rpc.origin]);
            && Lookup(s, rpc) in {Refused, Found(rpc.origin, rpc.k + 1)}
            && (key in s.sessions && s.sessions[key] == rpc.origin ==> Lookup(s, rpc) == Found(rpc.origin, rpc.k + 1))
  {
    hide Key, ParseOpen, OpenAddr;
    var rpc := s.rpcs[r];
    var o := rpc.origin;
    assert RpcOk(s, rpc);
    OpenAddrRoundTrip(s.calls[o].addr, rpc.k + 1);
    var key := KeyOf(s.calls[o]);
    assert key in s.sessions ==> OthersQuiet(s, s.sessions[key]);
  }

  /** A stream that has found its session finds its connection there. */
  lemma ConnIsThere(s: State, r: nat)
    requires CallsOk(s) && RpcsOk(s) && Enabled(s, FindConn(r))
    ensures var pc := s.rpcs[r].pc;
            && pc.id in s.calls[pc.session].conns
            && s.calls[pc.session].conns[pc.id] == s.calls[s.rpcs[r].origin].accepted[s.rpcs[r].k]
  {
    hide OpenAddr;
    assert RpcOk(s, s.rpcs[r]);
    assert CallOk(s.calls[s.rpcs[r].origin]);
  }

  /** A call that has not got past binding has no stream and no OPEN. */
  lemma YoungIsQuiet(s: State, o: nat)
    requires CallsOk(s) && RpcsOk(s) && o < |s.calls| && (Early(s.calls[o].pc) || s.calls[o].pc.Bound?)
    ensures Quiet(s, o)
    ensures NoneRefused(s, o)
  {
    hide OpenAddr;
    assert CallOk(s.calls[o]);
    assert forall r :: 0 <= r < |s.rpcs| ==> RpcOk(s, s.rpcs[r]);
  }

  /** A quiet call stays quiet until it inserts its session. */
  lemma QuietStays(s: State, e: Event, o: nat)
    requires RpcsOk(s) && o < |s.calls| && Quiet(s, o) && Enabled(s, e) && Orderly(s, e) && e != Insert(o)
    ensures Quiet(Apply(s, e), o)
  {
    hide OpenAddr, Key, Lookup, RpcOk, Free, Endpoint;
  }

  lemma QuietKeeps(s: State, e: Event, key: string)
    requires TableOk(s) && CallsOk(s) && RpcsOk(s) && SessionsOk(s) && Enabled(s, e) && Orderly(s, e)
    requires CallsOk(Apply(s, e)) && RpcsOk(Apply(s, e)) && key in Apply(s, e).sessions
    requires Apply(s, e).sessions[key] < |Apply(s, e).calls|
    ensures OthersQuiet(Apply(s, e), Apply(s, e).sessions[key])
  {
    hide Key, Apply, Enabled, Quiet, CallOk, RpcOk, CallsOk, RpcsOk, TableOk;
    var t := Apply(s, e);
    var i := t.sessions[key];
    TableMoves(s, e, key);
    assert OthersQuiet(s, i);
    forall o | 0 <= o < |t.calls| && o != i && KeyOf(t.calls[o]) == KeyOf(t.calls[i])
      ensures Quiet(t, o)
    {
      if o >= |s.calls| {
        StartIsYoung(s, e);
        YoungIsQuiet(t, o);
      } else if KeyOf(t.calls[o]) != KeyOf(s.calls[o]) {
        BindIsYoung(s, e);
        YoungIsQuiet(t, o);
      } else {
        assert Quiet(s, o);
        QuietStays(s, e, o);
      }
    }
  }

  lemma StartIsYoung(s: State, e: Event)
    requires Enabled(s, e) && e.Start?
    ensures |Apply(s, e).calls| == |s.calls| + 1 && Early(Apply(s, e).calls[|s.calls|].pc)
  {
  }

  lemma BindIsYoung(s: State, e: Event)
    requires Enabled(s, e) && e.Bind?
    ensures e.i < |Apply(s, e).calls| && Apply(s, e).calls[e.i].pc.Bound?
  {
    hide Free, Endpoint;
  }

  /** A stream is refused by nothing but a lookup that fails. */
  lemma RefusalMoves(s: State, e: Event, r: nat)
    requires Enabled(s, e) && r < |Apply(s, e).rpcs| && Apply(s, e).rpcs[r].pc.Refused?
    ensures r < |s.rpcs| && Apply(s, e).rpcs[r].origin == s.rpcs[r].origin
    ensures || s.rpcs[r].pc.Refused?
            || (e == FindSession(r) && Lookup(s, s.rpcs[r]).Refused?)
            || (e == FindConn(r) && s.rpcs[r].pc.id !in s.calls[s.rpcs[r].pc.session].conns)
  {
    hide OpenAddr, Lookup, Key, Free, Endpoint;
  }

  lemma RefusedKeeps(s: State, e: Event, key: string)
    requires Registry(s) && CallsOk(s) && RpcsOk(s) && SessionsOk(s) && Enabled(s, e)
    requires key in Apply(s, e).sessions
    ensures NoneRefused(Apply(s, e), Apply(s, e).sessions[key])
  {
    TableMoves(s, e, key);
    assert e.Insert? ==> e.i < |s.calls| && s.calls[e.i].pc.Bound?;
    hide Apply, Enabled, Lookup, Key, CallsOk, RpcsOk, OthersQuiet, Exclusive, ListenersOk, TableOk;
    var t := Apply(s, e);
    var i := t.sessions[key];
    forall r | 0 <= r < |t.rpcs| && t.rpcs[r].origin == i
      ensures !t.rpcs[r].pc.Refused?
    {
      if t.rpcs[r].pc.Refused? {
        RefusalMoves(s, e, r);
        if e == Insert(i) {
          YoungIsQuiet(s, i);
        } else if e == FindSession(r) {
          LookupFindsOrigin(s, r);
        } else if e == FindConn(r) {
          ConnIsThere(s, r);
        }
      }
    }
  }

  lemma SessionsKeep(s: State, e: Event)
    requires Registry(s) && CallsOk(s) && RpcsOk(s) && SessionsOk(s) && Enabled(s, e) && Orderly(s, e)
    requires CallsOk(Apply(s, e)) && RpcsOk(Apply(s, e))
    ensures SessionsOk(Apply(s, e))
  {
    hide Key, Apply, Enabled, Quiet, CallOk, RpcOk, CallsOk, RpcsOk;
    hide TableOk, Exclusive, ListenersOk, OthersQuiet, NoneRefused;
    var t := Apply(s, e);
    forall key | key in t.sessions
      ensures t.sessions[key] < |t.calls| && '/' !in t.calls[t.sessions[key]].addr
      ensures OthersQuiet(t, t.sessions[key]) && NoneRefused(t, t.sessions[key])
    {
      TableMoves(s, e, key);
      QuietKeeps(s, e, key);
      RefusedKeeps(s, e, key);
    }
  }

  predicate Inv(s: State) {
    Registry(s) && CallsOk(s) && RpcsOk(s) && SessionsOk(s)
  }

  lemma StepKeeps(s: State, e: Event)
    requires Inv(s) && Enabled(s, e) && Orderly(s, e)
    ensures Inv(Apply(s, e))
  {
    hide Enabled, Apply, Registry, CallsOk, RpcsOk, SessionsOk, Orderly, Lookup;
    RegistryKeeps(s, e);
    if e.FindSession? {
      FindEnabled(s, e);
      LookupFindsOrigin(s, e.r);
    }
    CallsKeep(s, e);
    RpcsKeep(s, e);
    SessionsKeep(s, e);
  }

  lemma FindEnabled(s: State, e: Event)
    requires Enabled(s, e) && e.FindSession?
    ensures e.r < |s.rpcs| && e == FindSession(e.r)
  {
  }

  /** A run in which every step is orderly. */
  predicate OrderlyRun(events: seq<Event>) {
    events == [] ||
    (OrderlyRun(events[..|events| - 1]) &&
     match Run(events[..|events| - 1])
     case None => false
     case Some(s) => Enabled(s, events[|events| - 1]) && Orderly(s, events[|events| - 1]))
  }

  lemma {:induction false} RunKeeps(events: seq<Event>)
    requires OrderlyRun(events)
    ensures Run(events).Some? && Inv(Run(events).value)
  {
    if events != [] {
      hide Inv, Enabled, Apply, Orderly;
      var before := events[..|events| - 1];
      RunKeeps(before);
      StepKeeps(Run(before).value, events[|events| - 1]);
    }
  }

  // ---- theorems about every orderly run ----

  /** The session of call i is the one its address leads to. */
  predicate Registered(s: State, i: nat) {
    i < |s.calls| && KeyOf(s.calls[i]) in s.sessions && s.sessions[KeyOf(s.calls[i])] == i
  }

  /**
   While its session is registered no lookup of an answer can fail: the stream finds that session,
   and there the connection it was opened for.
   */
  lemma LookupsSucceed(events: seq<Event>, s: State, r: nat)
    requires OrderlyRun(events) && Run(events) == Some(s) && r < |s.rpcs| && Registered(s, s.rpcs[r].origin)
    ensures s.rpcs[r].pc.Arriving? ==> Lookup(s, s.rpcs[r]) == Found(s.rpcs[r].origin, s.rpcs[r].k + 1)
    ensures s.rpcs[r].pc.Found? && s.rpcs[r].pc.session < |s.calls| ==>
              s.rpcs[r].pc.id in s.calls[s.rpcs[r].pc.session].conns
  {
    hide Run, OrderlyRun, Key, CallsOk, RpcsOk, SessionsOk, Registry, Lookup;
    RunKeeps(events);
    if s.rpcs[r].pc.Arriving? {
      LookupFindsOrigin(s, r);
    } else if s.rpcs[r].pc.Found? && s.rpcs[r].pc.session < |s.calls| {
      ConnIsThere(s, r);
    }
  }

  /** The address of a call that can accept, or has a connection to record or to announce, leads to its
      own session or nowhere. */
  lemma ServingIsRegistered(s: State, i: nat)
    requires Inv(s) && i < |s.calls|
    requires CanAccept(s.calls[i]) || s.calls[i].pc.Took? || s.calls[i].pc.Accepted?
    ensures KeyOf(s.calls[i]) in s.sessions ==> Registered(s, i)
  {
    hide Key, CallsOk, RpcsOk;
    if KeyOf(s.calls[i]) in s.sessions {
      var j := s.sessions[KeyOf(s.calls[i])];
      assert OthersQuiet(s, j);
    }
  }

  // ---- why a new session must not start while old answers are under way ----

  lemma Extend(es: seq<Event>, s: State, e: Event, t: State)
    requires Run(es) == Some(s) && Enabled(s, e) && Apply(s, e) == t
    ensures Run(es + [e]) == Some(t)
  {
    hide Apply, Enabled;
    assert (es + [e])[..|es|] == es;
  }

  /** A call on "h:1" before and after it has accepted one connection. */
  function Young(pc: Pc, open: bool): Call {
    Call(Tcp, "h:1", if Early(pc) then "" else "h:1", pc, open, 0, map[], [], [], 0, {})
  }

  function Busy(conn: ConnId, pc: Pc, open: bool, opens: seq<string>, answered: nat): Call {
    var none: map<nat, ConnId> := map[];
    Call(Tcp, "h:1", "h:1", pc, open, 1, none[1 := conn], [conn], opens, answered, {})
  }

  lemma PortOne()
    ensures Endpoint("h:1", 1) == "h:1"
  {
    SplitJoin("h", "1", ':');
    assert "h:1" == "h" + [':'] + "1";
    assert LastPart("h:1") == LastPart("1") == "1";
    DecimalReads(1);
  }

  /** A call starts, checks, binds and inserts; nobody else holds the address. */
  lemma Register(es: seq<Event>, prior: seq<Call>, rpcs: seq<Rpc>) returns (fs: seq<Event>)
    requires Run(es) == Some(State(map[], prior, rpcs)) && forall c :: c in prior ==> !c.open
    ensures Run(fs) == Some(State(map[][Key(Tcp, "h:1") := |prior|], prior + [Young(Serving, true)], rpcs))
  {
    PortOne();
    hide Run, Key, Decimal, Endpoint;
    var a, n := "h:1", |prior|;
    var s0 := State(map[], prior, rpcs);
    var s1 := s0.(calls := prior + [Young(Checking, false)]);
    var s2 := s0.(calls := prior + [Young(Listening, false)]);
    var s3 := s0.(calls := prior + [Young(Bound, true)]);
    var s4 := State(map[][Key(Tcp, a) := n], prior + [Young(Serving, true)], rpcs);
    fs := es;
    Extend(fs, s0, Start(Tcp, a), s1); fs := fs + [Start(Tcp, a)];
    Extend(fs, s1, Check(n), s2); fs := fs + [Check(n)];
    Extend(fs, s2, Bind(n, 1), s3); fs := fs + [Bind(n, 1)];
    Extend(fs, s3, Insert(n), s4); fs := fs + [Insert(n)];
  }

  /** A connection arrives at the session registered last. */
  lemma Connect(es: seq<Event>, sessions: map<string, nat>, prior: seq<Call>, rpcs: seq<Rpc>, conn: ConnId)
    requires Run(es) == Some(State(sessions, prior + [Young(Serving, true)], rpcs))
    ensures Run(es + [AcceptReturns(|prior|, conn)] + [Record(|prior|)]) ==
            Some(State(sessions, prior + [Busy(conn, Accepted, true, [], 0)], rpcs))
  {
    hide Run, Key, Decimal;
    var s := State(sessions, prior + [Young(Serving, true)], rpcs);
    var t := State(sessions, prior + [Young(Took(conn), true)], rpcs);
    var u := State(sessions, prior + [Busy(conn, Accepted, true, [], 0)], rpcs);
    assert Apply(s, AcceptReturns(|prior|, conn)).calls == t.calls;
    Extend(es, s, AcceptReturns(|prior|, conn), t);
    assert (0 + 1) % UINT64 == 1;
    assert [] + [conn] == [conn];
    assert Apply(t, Record(|prior|)).calls == u.calls;
    Extend(es + [AcceptReturns(|prior|, conn)], t, Record(|prior|), u);
  }

  /** The OPEN is sent and answered, and then the session is stopped. */
  lemma AnswerThenStop(es: seq<Event>) returns (fs: seq<Event>)
    requires Run(es) == Some(State(map[][Key(Tcp, "h:1") := 0], [Busy(7, Accepted, true, [], 0)], []))
    ensures Run(fs) == Some(State(map[], [Busy(7, Serving, false, [], 1)], [OldAnswer(Arriving)]))
  {
    hide Run, Key, Decimal, OpenAddr;
    var a := "h:1";
    var table: map<string, nat> := map[][Key(Tcp, a) := 0];
    var s0 := State(table, [Busy(7, Accepted, true, [], 0)], []);
    var s1 := State(table, [Busy(7, Serving, true, [OpenAddr(a, 1)], 0)], []);
    var s2 := State(table, [Busy(7, Serving, true, [], 1)], [OldAnswer(Arriving)]);
    var s3 := State(map[], [Busy(7, Serving, false, [], 1)], [OldAnswer(Arriving)]);
    fs := es;
    assert [] + [OpenAddr(a, 1)] == [OpenAddr(a, 1)];
    assert Apply(s0, SendOpen(0)).calls == s1.calls;
    Extend(fs, s0, SendOpen(0), s1); fs := fs + [SendOpen(0)];
    assert [OpenAddr(a, 1)][1..] == [];
    Extend(fs, s1, Answer(0), s2); fs := fs + [Answer(0)];
    assert table - {Key(Tcp, a)} == map[];
    Extend(fs, s2, Stop(Tcp, a), s3); fs := fs + [Stop(Tcp, a)];
  }

  function OldAnswer(pc: RpcPc): Rpc {
    Rpc(0, 0, Tcp, OpenAddr("h:1", 1), pc)
  }

  /**
   A session on "h:1" accepts connection 7 and its OPEN is answered; before that answer is looked up
   the session is stopped and another one starts on the same address and accepts connection 8. The
   old answer is then joined to connection 8.
   */
  lemma StaleAnswerMispairs() returns (es: seq<Event>)
    ensures Run(es).Some? && |Run(es).value.rpcs| == 1 && |Run(es).value.calls| == 2
    ensures Run(es).value.rpcs[0].origin == 0 && Run(es).value.calls[0].accepted == [7]
    ensures Run(es).value.rpcs[0].pc == Joined(1, 1, 8)
  {
    assert Run([]) == Some(State(map[], [], []));
    hide Run, Key, Decimal, OpenAddr, ParseOpen;
    es := Register([], [], []);
    assert [] + [Young(Serving, true)] == [Young(Serving, true)];
    Connect(es, map[][Key(Tcp, "h:1") := 0], [], [], 7);
    assert [] + [Busy(7, Accepted, true, [], 0)] == [Busy(7, Accepted, true, [], 0)];
    es := AnswerThenStop(es + [AcceptReturns(0, 7)] + [Record(0)]);
    var prior := [Busy(7, Serving, false, [], 1)];
    es := Register(es, prior, [OldAnswer(Arriving)]);
    var table: map<string, nat> := map[][Key(Tcp, "h:1") := 1];
    Connect(es, table, prior, [OldAnswer(Arriving)], 8);
    es := es + [AcceptReturns(1, 8)] + [Record(1)];
    JoinOld(es, table, prior + [Busy(8, Accepted, true, [], 0)]);
    es := es + [FindSession(0)] + [FindConn(0)];
  }

  lemma LooksUp(table: map<string, nat>, calls: seq<Call>)
    requires table == map[][Key(Tcp, "h:1") := 1]
    ensures Lookup(State(table, calls, [OldAnswer(Arriving)]), OldAnswer(Arriving)) == Found(1, 1)
  {
    hide Key, Decimal, OpenAddr, ParseOpen;
    OpenAddrRoundTrip("h:1", 1);
  }

  lemma JoinOld(es: seq<Event>, table: map<string, nat>, calls: seq<Call>)
    requires Run(es) == Some(State(table, calls, [OldAnswer(Arriving)]))
    requires table == map[][Key(Tcp, "h:1") := 1] && |calls| == 2 && calls[1] == Busy(8, Accepted, true, [], 0)
    ensures Run(es + [FindSession(0)] + [FindConn(0)]) == Some(State(table, calls, [OldAnswer(Joined(1, 1, 8))]))
  {
    hide Run, Key, Decimal, OpenAddr, ParseOpen;
    hide Lookup;
    var s0 := State(table, calls, [OldAnswer(Arriving)]);
    var s1 := State(table, calls, [OldAnswer(Found(1, 1))]);
    var s2 := State(table, calls, [OldAnswer(Joined(1, 1, 8))]);
    LooksUp(table, calls);
    Extend(es, s0, FindSession(0), s1);
    Extend(es + [FindSession(0)], s1, FindConn(0), s2);
  }
}
