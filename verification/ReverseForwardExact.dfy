/** The condition under which a new session keeps the pairing of answers and connections, both ways. */
module ReverseForwardExact {
  import opened Bytes
  import opened Text
  import opened ReverseForward
  import opened ReverseForwardProof

  /** Every stream that has been joined has the connection its OPEN was sent for. */
  predicate Paired(s: State) {
    forall r :: 0 <= r < |s.rpcs| && (s.rpcs[r].pc.Joined? || s.rpcs[r].pc.Finished?) ==> JoinedRight(s, s.rpcs[r])
  }

  predicate JoinedRight(s: State, rpc: Rpc)
    requires rpc.pc.Joined? || rpc.pc.Finished?
  {
    && rpc.origin < |s.calls| && rpc.k < |s.calls[rpc.origin].accepted|
    && rpc.pc.session == rpc.origin && rpc.pc.conn == s.calls[rpc.origin].accepted[rpc.k]
  }

  /** The state after an orderly continuation, None when some step is not possible or not orderly. */
  function After(s: State, es: seq<Event>): Option<State>
    decreases |es|
  {
    if es == [] then Some(s)
    else if Enabled(s, es[0]) && Orderly(s, es[0]) then After(Apply(s, es[0]), es[1..])
    else None
  }

  lemma AfterCons(s: State, e: Event, es: seq<Event>)
    requires Enabled(s, e) && Orderly(s, e)
    ensures After(s, [e] + es) == After(Apply(s, e), es)
  {
    hide Enabled, Orderly, Apply;
    assert ([e] + es)[1..] == es;
  }

  lemma {:induction false} AfterKeeps(s: State, es: seq<Event>)
    requires Inv(s) && After(s, es).Some?
    ensures Inv(After(s, es).value)
    decreases |es|
  {
    hide Inv, Enabled, Orderly, Apply;
    if es != [] {
      StepKeeps(s, es[0]);
      AfterKeeps(Apply(s, es[0]), es[1..]);
    }
  }

  lemma InvPaired(s: State)
    requires Inv(s)
    ensures Paired(s)
  {
    hide OpenAddr, CallOk, Registry, SessionsOk;
    forall r | 0 <= r < |s.rpcs| && (s.rpcs[r].pc.Joined? || s.rpcs[r].pc.Finished?)
      ensures JoinedRight(s, s.rpcs[r])
    {
      assert RpcOk(s, s.rpcs[r]);
    }
  }

  // ---- from anything left under way to a stream joined to the wrong session ----

  /** Session i has taken over the address of call o and answers nothing yet. */
  predicate Between(s: State, i: nat, o: nat) {
    && CallsOk(s) && RpcsOk(s)
    && i < |s.calls| && o < |s.calls| && i != o && KeyOf(s.calls[i]) == KeyOf(s.calls[o])
    && Registered(s, i) && '/' !in s.calls[o].addr && s.calls[i].open && s.calls[i].answered == 0
  }

  predicate TakenOver(s: State, i: nat, o: nat) {
    Between(s, i, o) && s.calls[i].pc.Serving?
  }

  predicate Stale(s: State, o: nat, r: nat) {
    r < |s.rpcs| && s.rpcs[r].origin == o && s.rpcs[r].pc.Arriving?
  }

  /** One more connection for the new session: accepted, recorded and announced. */
  function OneMore(i: nat): seq<Event> {
    [AcceptReturns(i, 0)] + ([Record(i)] + [SendOpen(i)])
  }

  lemma BetweenKeeps(s: State, i: nat, o: nat, e: Event)
    requires Between(s, i, o) && Enabled(s, e) && Orderly(s, e)
    requires e == AcceptReturns(i, 0) || e == Record(i) || e == SendOpen(i)
    ensures Between(Apply(s, e), i, o) && Apply(s, e).rpcs == s.rpcs && |Apply(s, e).calls| == |s.calls|
  {
    hide Key, Lookup, OpenAddr, ParseOpen, Free, Endpoint, CallOk, RpcOk;
    CallsKeep(s, e);
    RpcsKeep(s, e);
  }

  lemma Announced(s: State, i: nat, o: nat, r: nat)
    requires TakenOver(s, i, o) && Stale(s, o, r) && |s.calls[i].accepted| <= s.rpcs[r].k
    ensures var u := After(s, OneMore(i));
            && u.Some? && TakenOver(u.value, i, o) && Stale(u.value, o, r)
            && u.value.rpcs == s.rpcs && |u.value.calls[i].accepted| == |s.calls[i].accepted| + 1
  {
    hide Key, Lookup, OpenAddr, ParseOpen, Free, Endpoint, After;
    assert RpcOk(s, s.rpcs[r]);
    assert CallOk(s.calls[o]);
    hide CallOk, RpcOk, CallsOk, RpcsOk;
    var t := Apply(s, AcceptReturns(i, 0));
    BetweenKeeps(s, i, o, AcceptReturns(i, 0));
    var u := Apply(t, Record(i));
    BetweenKeeps(t, i, o, Record(i));
    var v := Apply(u, SendOpen(i));
    BetweenKeeps(u, i, o, SendOpen(i));
    AfterCons(s, AcceptReturns(i, 0), [Record(i)] + [SendOpen(i)]);
    AfterCons(t, Record(i), [SendOpen(i)]);
    AfterOne(u, SendOpen(i));
  }

  lemma AfterOne(s: State, e: Event)
    requires Enabled(s, e) && Orderly(s, e)
    ensures After(s, [e]) == Some(Apply(s, e))
  {
    hide Enabled, Orderly, Apply;
    assert [e] == [e] + [];
    AfterCons(s, e, []);
  }

  lemma {:induction false} AfterPlus(s: State, a: seq<Event>, b: seq<Event>)
    requires After(s, a).Some?
    ensures After(s, a + b) == After(After(s, a).value, b)
    decreases |a|
  {
    hide Enabled, Orderly, Apply;
    if a == [] {
      assert a + b == b;
    } else {
      assert (a + b)[1..] == a[1..] + b;
      AfterPlus(Apply(s, a[0]), a[1..], b);
    }
  }

  lemma JoinWrong(s: State, i: nat, o: nat, r: nat)
    requires TakenOver(s, i, o) && Stale(s, o, r) && s.rpcs[r].k < |s.calls[i].accepted|
    ensures After(s, [FindSession(r)] + [FindConn(r)]).Some?
    ensures !Paired(After(s, [FindSession(r)] + [FindConn(r)]).value)
  {
    hide Key, OpenAddr, ParseOpen, Free, Endpoint;
    var rpc := s.rpcs[r];
    assert RpcOk(s, rpc);
    assert CallOk(s.calls[i]) && CallOk(s.calls[o]);
    OpenAddrRoundTrip(s.calls[o].addr, rpc.k + 1);
    assert Lookup(s, rpc) == Found(i, rpc.k + 1);
    assert rpc.k + 1 in s.calls[i].conns;
    hide Lookup, CallOk, RpcOk, CallsOk, RpcsOk;
    AfterCons(s, FindSession(r), [FindConn(r)]);
    var t := Apply(s, FindSession(r));
    assert [FindConn(r)] == [FindConn(r)] + [];
    AfterCons(t, FindConn(r), []);
    var u := Apply(t, FindConn(r));
    assert u.rpcs[r].pc.Joined? && u.rpcs[r].pc.session == i && u.rpcs[r].origin == o;
    assert !JoinedRight(u, u.rpcs[r]);
  }

  /** The new session accepts until it has a connection of the stale answer's number. */
  lemma {:induction false} FromStale(s: State, i: nat, o: nat, r: nat) returns (es: seq<Event>)
    requires TakenOver(s, i, o) && Stale(s, o, r)
    ensures After(s, es).Some? && !Paired(After(s, es).value)
    decreases s.rpcs[r].k + 1 - |s.calls[i].accepted|
  {
    if s.rpcs[r].k < |s.calls[i].accepted| {
      JoinWrong(s, i, o, r);
      es := [FindSession(r)] + [FindConn(r)];
    } else {
      Announced(s, i, o, r);
      hide TakenOver, Paired, After, OneMore;
      var more := FromStale(After(s, OneMore(i)).value, i, o, r);
      AfterPlus(s, OneMore(i), more);
      es := OneMore(i) + more;
    }
  }

  lemma AnswerTakes(s: State, i: nat, o: nat)
    requires TakenOver(s, i, o) && s.calls[o].opens != []
    ensures Enabled(s, Answer(o)) && Orderly(s, Answer(o))
    ensures TakenOver(Apply(s, Answer(o)), i, o) && Stale(Apply(s, Answer(o)), o, |s.rpcs|)
  {
    hide Key, Lookup, OpenAddr, ParseOpen, Free, Endpoint, CallOk, RpcOk;
    CallsKeep(s, Answer(o));
    RpcsKeep(s, Answer(o));
  }

  lemma SendTakes(s: State, i: nat, o: nat)
    requires TakenOver(s, i, o) && s.calls[o].pc.Accepted?
    ensures Enabled(s, SendOpen(o)) && Orderly(s, SendOpen(o))
    ensures var t := Apply(s, SendOpen(o)); TakenOver(t, i, o) && t.calls[o].opens != []
  {
    hide Key, Lookup, OpenAddr, ParseOpen, Free, Endpoint, CallOk, RpcOk;
    CallsKeep(s, SendOpen(o));
    RpcsKeep(s, SendOpen(o));
  }

  /** An OPEN of the old session still on its way is answered. */
  lemma FromOpen(s: State, i: nat, o: nat) returns (es: seq<Event>)
    requires TakenOver(s, i, o) && s.calls[o].opens != []
    ensures After(s, es).Some? && !Paired(After(s, es).value)
  {
    AnswerTakes(s, i, o);
    hide TakenOver, Apply, Paired, Enabled, Orderly;
    var t := Apply(s, Answer(o));
    var more := FromStale(t, i, o, |s.rpcs|);
    AfterCons(s, Answer(o), more);
    es := [Answer(o)] + more;
  }

  /** An OPEN the old session still owes is sent. */
  lemma FromAccepted(s: State, i: nat, o: nat) returns (es: seq<Event>)
    requires TakenOver(s, i, o) && s.calls[o].pc.Accepted?
    ensures After(s, es).Some? && !Paired(After(s, es).value)
  {
    SendTakes(s, i, o);
    var t := Apply(s, SendOpen(o));
    hide TakenOver, Apply, Paired, Enabled, Orderly;
    var more := FromOpen(t, i, o);
    AfterCons(s, SendOpen(o), more);
    es := [SendOpen(o)] + more;
  }

  lemma RecordTakes(s: State, i: nat, o: nat)
    requires TakenOver(s, i, o) && s.calls[o].pc.Took?
    ensures Enabled(s, Record(o)) && Orderly(s, Record(o))
    ensures var t := Apply(s, Record(o)); TakenOver(t, i, o) && t.calls[o].pc.Accepted?
  {
    hide Key, Lookup, OpenAddr, ParseOpen, Free, Endpoint, CallOk, RpcOk;
    CallsKeep(s, Record(o));
    RpcsKeep(s, Record(o));
  }

  /** A connection the old session took before it was stopped is recorded. */
  lemma FromTook(s: State, i: nat, o: nat) returns (es: seq<Event>)
    requires TakenOver(s, i, o) && s.calls[o].pc.Took?
    ensures After(s, es).Some? && !Paired(After(s, es).value)
  {
    RecordTakes(s, i, o);
    var t := Apply(s, Record(o));
    hide TakenOver, Apply, Paired, Enabled, Orderly;
    var more := FromAccepted(t, i, o);
    AfterCons(s, Record(o), more);
    es := [Record(o)] + more;
  }

  lemma AcceptTakes(s: State, i: nat, o: nat)
    requires TakenOver(s, i, o) && CanAccept(s.calls[o])
    ensures Enabled(s, AcceptReturns(o, 0)) && Orderly(s, AcceptReturns(o, 0))
    ensures var t := Apply(s, AcceptReturns(o, 0)); TakenOver(t, i, o) && t.calls[o].pc.Took?
  {
    hide Key, Lookup, OpenAddr, ParseOpen, Free, Endpoint, CallOk, RpcOk;
    CallsKeep(s, AcceptReturns(o, 0));
    RpcsKeep(s, AcceptReturns(o, 0));
  }

  /** The old session, its listener still open, accepts a connection. */
  lemma FromServing(s: State, i: nat, o: nat) returns (es: seq<Event>)
    requires TakenOver(s, i, o) && CanAccept(s.calls[o])
    ensures After(s, es).Some? && !Paired(After(s, es).value)
  {
    AcceptTakes(s, i, o);
    var t := Apply(s, AcceptReturns(o, 0));
    hide TakenOver, Apply, Paired, Enabled, Orderly;
    var more := FromTook(t, i, o);
    AfterCons(s, AcceptReturns(o, 0), more);
    es := [AcceptReturns(o, 0)] + more;
  }

  lemma InsertTakesOver(s: State, i: nat, o: nat)
    requires Inv(s) && Enabled(s, Insert(i)) && '/' !in s.calls[i].addr
    requires o < |s.calls| && o != i && KeyOf(s.calls[o]) == KeyOf(s.calls[i])
    ensures TakenOver(Apply(s, Insert(i)), i, o)
    ensures Apply(s, Insert(i)).calls[o] == s.calls[o] && Apply(s, Insert(i)).rpcs == s.rpcs
  {
    hide Lookup, OpenAddr, ParseOpen, Free, Endpoint, SessionsOk, TableOk;
    SameKey(s.calls[i], s.calls[o]);
    hide Key;
    assert CallOk(s.calls[i]) && s.calls[i].open;
    hide CallOk, RpcOk;
    OtherBooks(s, Insert(i));
    RpcsKeep(s, Insert(i));
  }

  lemma UnquietMispairs(s: State, i: nat) returns (es: seq<Event>)
    requires Inv(s) && Enabled(s, Insert(i)) && '/' !in s.calls[i].addr && !OthersQuiet(s, i)
    ensures After(Apply(s, Insert(i)), es).Some? && !Paired(After(Apply(s, Insert(i)), es).value)
  {
    hide Key, Inv, Paired, TakenOver;
    var o :| 0 <= o < |s.calls| && o != i && KeyOf(s.calls[o]) == KeyOf(s.calls[i]) && !Quiet(s, o);
    InsertTakesOver(s, i, o);
    var t := Apply(s, Insert(i));
    if CanAccept(s.calls[o]) {
      es := FromServing(t, i, o);
    } else if s.calls[o].pc.Took? {
      es := FromTook(t, i, o);
    } else if s.calls[o].pc.Accepted? {
      es := FromAccepted(t, i, o);
    } else if s.calls[o].opens != [] {
      es := FromOpen(t, i, o);
    } else {
      var r :| 0 <= r < |s.rpcs| && s.rpcs[r].origin == o && s.rpcs[r].pc.Arriving?;
      es := FromStale(t, i, o, r);
    }
  }

  /**
   The exact condition on starting a session, at every insertion of every orderly run: the pairing
   survives every orderly continuation if and only if no other session on the address can still accept
   or has a connection to record or to announce, an OPEN under way or an answer to be looked up.
   */
  lemma PairingExactly(events: seq<Event>, s: State, i: nat)
    requires OrderlyRun(events) && Run(events) == Some(s) && Enabled(s, Insert(i)) && '/' !in s.calls[i].addr
    ensures OthersQuiet(s, i) <==>
              forall es: seq<Event> :: After(Apply(s, Insert(i)), es).Some? ==>
                                         Paired(After(Apply(s, Insert(i)), es).value)
  {
    hide Run, OrderlyRun, Inv, Key, Paired;
    RunKeeps(events);
    var t := Apply(s, Insert(i));
    if OthersQuiet(s, i) {
      StepKeeps(s, Insert(i));
      forall es: seq<Event> | After(t, es).Some?
        ensures Paired(After(t, es).value)
      {
        AfterKeeps(t, es);
        InvPaired(After(t, es).value);
      }
    } else {
      var es := UnquietMispairs(s, i);
      assert After(t, es).Some? && !Paired(After(t, es).value);
    }
  }
}
