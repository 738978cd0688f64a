/**
 The reverse-forwarding protocol against its schedule: which connections a session has accepted, which
 streams answer it and which calls were turned away, read off the sequence of events alone.
 */
module ReverseForwardSchedule {
  import opened Bytes
  import opened Text
  import opened ReverseForward
  import opened ReverseForwardProof

  // ---- what a schedule says ----

  /** The connections the accept loop of call i was given, in order. */
  function AcceptedBy(events: seq<Event>, i: nat): seq<ConnId> {
    if events == [] then []
    else
      var before, e := events[..|events| - 1], events[|events| - 1];
      if e.AcceptReturns? && e.i == i then AcceptedBy(before, i) + [e.conn] else AcceptedBy(before, i)
  }

  /** The calls whose OPENs the client has answered, in the order of the answers. */
  function AnsweredBy(events: seq<Event>): seq<nat> {
    if events == [] then []
    else
      var before, e := events[..|events| - 1], events[|events| - 1];
      if e.Answer? then AnsweredBy(before) + [e.i] else AnsweredBy(before)
  }

  /** How many of these are i. */
  function Count(xs: seq<nat>, i: nat): nat {
    if xs == [] then 0 else Count(xs[..|xs| - 1], i) + if xs[|xs| - 1] == i then 1 else 0
  }

  /** The connection call c has taken and not recorded yet. */
  function InHand(c: Call): seq<ConnId> {
    if c.pc.Took? then [c.pc.conn] else []
  }

  predicate ConnsFollow(events: seq<Event>, s: State, i: nat) {
    AcceptedBy(events, i) == if i < |s.calls| then s.calls[i].accepted + InHand(s.calls[i]) else []
  }

  lemma ConnsMove(s: State, e: Event, i: nat)
    requires Enabled(s, e) && i < |Apply(s, e).calls|
    ensures var d := Apply(s, e).calls[i];
            d.accepted + InHand(d) ==
              (if i < |s.calls| then s.calls[i].accepted + InHand(s.calls[i]) else [])
              + (if e.AcceptReturns? && e.i == i then [e.conn] else [])
  {
    hide OpenAddr, ParseOpen, Key, Lookup, Free, Endpoint;
    if i < |s.calls| {
      var c := s.calls[i];
      assert c.accepted + [] == c.accepted && (c.accepted + InHand(c)) + [] == c.accepted + InHand(c);
    }
  }

  lemma ConnsStep(before: seq<Event>, s: State, e: Event, i: nat)
    requires Enabled(s, e) && ConnsFollow(before, s, i)
    ensures ConnsFollow(before + [e], Apply(s, e), i)
  {
    NoFewerCalls(s, e);
    assert e.AcceptReturns? ==> e.i < |s.calls|;
    hide Apply, Enabled, InHand;
    assert (before + [e])[..|before|] == before;
    if i < |Apply(s, e).calls| {
      ConnsMove(s, e, i);
      assert AcceptedBy(before, i) + [] == AcceptedBy(before, i);
    }
  }

  predicate RpcsFollow(events: seq<Event>, s: State) {
    && |s.rpcs| == |AnsweredBy(events)|
    && (forall i :: 0 <= i < |s.calls| ==> s.calls[i].answered == Count(AnsweredBy(events), i))
    && (forall r :: 0 <= r < |s.rpcs| ==>
                      && s.rpcs[r].origin == AnsweredBy(events)[r]
                      && s.rpcs[r].k == Count(AnsweredBy(events)[..r], s.rpcs[r].origin))
    && (forall r :: 0 <= r < |s.rpcs| ==> s.rpcs[r].origin < |s.calls|)
  }

  lemma RpcsMove(s: State, e: Event)
    requires Enabled(s, e)
    ensures var t := Apply(s, e);
            && |t.rpcs| == |s.rpcs| + (if e.Answer? then 1 else 0)
            && (forall r :: 0 <= r < |s.rpcs| ==> t.rpcs[r].origin == s.rpcs[r].origin && t.rpcs[r].k == s.rpcs[r].k)
            && (e.Answer? ==>
                  && e.i < |s.calls| && t.rpcs[|s.rpcs|].origin == e.i && t.rpcs[|s.rpcs|].k == s.calls[e.i].answered)
  {
    hide OpenAddr, ParseOpen, Key, Lookup, Free, Endpoint;
  }

  lemma AnsweredMoves(s: State, e: Event, i: nat)
    requires Enabled(s, e) && i < |Apply(s, e).calls|
    ensures Apply(s, e).calls[i].answered ==
            (if i < |s.calls| then s.calls[i].answered else 0) + (if e == Answer(i) then 1 else 0)
  {
    hide OpenAddr, ParseOpen, Key, Lookup, Free, Endpoint;
  }

  lemma {:induction false} CountNone(xs: seq<nat>, i: nat)
    requires i !in xs
    ensures Count(xs, i) == 0
  {
    if xs != [] {
      CountNone(xs[..|xs| - 1], i);
    }
  }

  lemma CountSnoc(xs: seq<nat>, x: nat, i: nat)
    ensures Count(xs + [x], i) == Count(xs, i) + if x == i then 1 else 0
  {
    assert (xs + [x])[..|xs|] == xs;
  }

  lemma RpcsStep(before: seq<Event>, s: State, e: Event)
    requires Enabled(s, e) && RpcsFollow(before, s)
    ensures RpcsFollow(before + [e], Apply(s, e))
  {
    RpcsMove(s, e);
    NoFewerCalls(s, e);
    hide Apply, Enabled, Count;
    var events, t := before + [e], Apply(s, e);
    assert events[..|before|] == before;
    var xs, ys := AnsweredBy(before), AnsweredBy(events);
    forall i | 0 <= i < |t.calls|
      ensures t.calls[i].answered == Count(ys, i)
    {
      AnsweredMoves(s, e, i);
      if e.Answer? {
        CountSnoc(xs, e.i, i);
      }
      if i >= |s.calls| {
        assert i !in xs;
        CountNone(xs, i);
      }
    }
    forall r | 0 <= r < |t.rpcs|
      ensures t.rpcs[r].origin == ys[r] && t.rpcs[r].k == Count(ys[..r], t.rpcs[r].origin)
    {
      if r < |s.rpcs| {
        assert ys[..r] == xs[..r];
      } else {
        assert ys[..r] == xs;
      }
    }
  }

  /**
   In every run the connections of a session are those its accept loop was given, in order, and stream
   number r answers the next unanswered OPEN of the call that the r-th answer of the client is for.
   */
  lemma {:induction false} ScheduleDecides(events: seq<Event>, i: nat)
    requires Run(events).Some?
    ensures ConnsFollow(events, Run(events).value, i) && RpcsFollow(events, Run(events).value)
  {
    if events != [] {
      var before, e := events[..|events| - 1], events[|events| - 1];
      assert events == before + [e];
      ScheduleDecides(before, i);
      hide ConnsFollow, RpcsFollow, Enabled, Apply;
      ConnsStep(before, Run(before).value, e, i);
      RpcsStep(before, Run(before).value, e);
    }
  }

  // ---- theorems about every run ----

  /** The answer to OPEN number k of call o has the k-th connection that o's accept loop was given. */
  predicate AnswerPaired(events: seq<Event>, s: State, r: nat)
    requires r < |s.rpcs| && r < |AnsweredBy(events)|
  {
    var o := AnsweredBy(events)[r];
    var k := Count(AnsweredBy(events)[..r], o);
    && o < |s.calls| && k < |AcceptedBy(events, o)|
    && (s.rpcs[r].pc.Joined? || s.rpcs[r].pc.Finished? ==>
          s.rpcs[r].pc.session == o && s.rpcs[r].pc.conn == AcceptedBy(events, o)[k])
    && (Registered(s, o) ==> !s.rpcs[r].pc.Refused?)
  }

  /**
   Pairing. In every orderly run the stream that answers the k-th OPEN of a session is joined, if at all,
   to the k-th connection that session accepted; it is the only stream that answers that OPEN, since the
   answers to a session are numbered in order; and while the session is registered no answer is refused.
   */
  lemma AnswersPaired(events: seq<Event>)
    requires OrderlyRun(events)
    ensures Run(events).Some? && |Run(events).value.rpcs| == |AnsweredBy(events)|
    ensures var s := Run(events).value; forall r :: 0 <= r < |s.rpcs| ==> AnswerPaired(events, s, r)
  {
    hide Run, OrderlyRun, OpenAddr, Key, CallOk, Registry, OthersQuiet, AcceptedBy, AnsweredBy, Count;
    RunKeeps(events);
    ScheduleDecides(events, 0);
    var s := Run(events).value;
    forall r | 0 <= r < |s.rpcs|
      ensures AnswerPaired(events, s, r)
    {
      ScheduleDecides(events, s.rpcs[r].origin);
      assert RpcOk(s, s.rpcs[r]);
    }
  }

  /**
   The connection map is exact: in every orderly run it holds, under the numbers 1, 2, 3, ..., precisely
   the recorded connections whose forwarding has not finished.
   */
  lemma ConnMapExact(events: seq<Event>, i: nat, id: nat)
    requires OrderlyRun(events)
    ensures Run(events).Some?
    ensures var s := Run(events).value;
            i < |s.calls| ==>
              var c := s.calls[i];
              && (id in c.conns <==> 1 <= id <= |c.accepted| && !FinishedFor(s, i, id - 1))
              && (id in c.conns ==> id <= |AcceptedBy(events, i)| && c.conns[id] == AcceptedBy(events, i)[id - 1])
  {
    hide Run, OrderlyRun, OpenAddr, Key, Registry, OthersQuiet, AcceptedBy, AnsweredBy, Count;
    RunKeeps(events);
    ScheduleDecides(events, i);
    var s := Run(events).value;
    if i < |s.calls| {
      assert CallOk(s.calls[i]);
      DoneExactly(events, s, i, id);
      hide FinishedFor;
    }
  }

  lemma {:induction false} NthIs(xs: seq<nat>, i: nat, k: nat) returns (r: nat)
    requires k < Count(xs, i)
    ensures r < |xs| && xs[r] == i && Count(xs[..r], i) == k
  {
    var front := xs[..|xs| - 1];
    if k < Count(front, i) {
      r := NthIs(front, i, k);
      assert xs[..r] == front[..r];
    } else {
      r := |xs| - 1;
    }
  }

  lemma DoneExactly(events: seq<Event>, s: State, i: nat, id: nat)
    requires RpcsFollow(events, s) && RpcsOk(s) && i < |s.calls| && CallOk(s.calls[i])
    ensures id in s.calls[i].done <==> FinishedFor(s, i, id - 1)
  {
    hide OpenAddr, AnsweredBy, Count, CallOk;
    if id in s.calls[i].done {
      DoneAnswered(events, s, i, id);
      var r := NthIs(AnsweredBy(events), i, id - 1);
      hide RpcsFollow;
      assert s.rpcs[r].origin == i && s.rpcs[r].k == id - 1 by {
        StreamNumber(events, s, r);
      }
      assert RpcOk(s, s.rpcs[r]);
      assert s.rpcs[r].pc.Finished?;
    }
    if FinishedFor(s, i, id - 1) {
      var r :| 0 <= r < |s.rpcs| && s.rpcs[r].origin == i && s.rpcs[r].k == id - 1 && s.rpcs[r].pc.Finished?;
      assert RpcOk(s, s.rpcs[r]);
    }
  }

  lemma DoneAnswered(events: seq<Event>, s: State, i: nat, id: nat)
    requires RpcsFollow(events, s) && i < |s.calls| && CallOk(s.calls[i]) && id in s.calls[i].done
    ensures 1 <= id <= Count(AnsweredBy(events), i) && |AnsweredBy(events)| == |s.rpcs|
  {
    hide OpenAddr, AnsweredBy, Count;
  }

  lemma StreamNumber(events: seq<Event>, s: State, r: nat)
    requires RpcsFollow(events, s) && r < |s.rpcs|
    ensures |AnsweredBy(events)| == |s.rpcs| && s.rpcs[r].origin == AnsweredBy(events)[r]
    ensures s.rpcs[r].k == Count(AnsweredBy(events)[..r], s.rpcs[r].origin)
  {
    hide AnsweredBy, Count;
  }

  /** A stream that answers OPEN number k of call i has finished. */
  predicate FinishedFor(s: State, i: nat, k: int) {
    exists r :: 0 <= r < |s.rpcs| && s.rpcs[r].origin == i && s.rpcs[r].k == k && s.rpcs[r].pc.Finished?
  }

  // ---- the test for an existing session ----

  /** The call has been turned away: no listener, no entry. */
  predicate TurnedAway(s: State, i: nat) {
    && i < |s.calls| && s.calls[i].pc.Returned? && !s.calls[i].open && s.calls[i].bound == ""
    && forall key :: key in s.sessions ==> s.sessions[key] != i
  }

  lemma AwayStays(s: State, e: Event, i: nat)
    requires Enabled(s, e) && TurnedAway(s, i)
    ensures TurnedAway(Apply(s, e), i)
  {
    hide OpenAddr, ParseOpen, Key, Lookup, Free, Endpoint;
  }

  /** A call that has not bound has no OS address. */
  lemma {:induction false} EarlyUnbound(events: seq<Event>, i: nat)
    requires Run(events).Some?
    ensures var s := Run(events).value; i < |s.calls| && Early(s.calls[i].pc) ==> s.calls[i].bound == ""
  {
    if events != [] {
      var before, e := events[..|events| - 1], events[|events| - 1];
      EarlyUnbound(before, i);
      hide Run, OpenAddr, ParseOpen, Key, Lookup, Free, Endpoint;
      UnboundStep(Run(before).value, e, i);
    }
  }

  lemma UnboundStep(s: State, e: Event, i: nat)
    requires Enabled(s, e) && (i < |s.calls| && Early(s.calls[i].pc) ==> s.calls[i].bound == "")
    ensures var t := Apply(s, e); i < |t.calls| && Early(t.calls[i].pc) ==> t.calls[i].bound == ""
  {
    hide OpenAddr, ParseOpen, Key, Lookup, Free, Endpoint;
  }

  /** Call i finds its address in the table, or gets no listener. */
  predicate TurnsAwayAt(s: State, e: Event, i: nat) {
    (e == Check(i) && i < |s.calls| && KeyOf(s.calls[i]) in s.sessions) || e == BindFails(i)
  }

  /**
   The test for an existing session, over every run: a call that finds its address in the table, or that
   gets no listener, is turned away for good, with no listener and no entry, whatever happens later.
   */
  lemma ExistingIsKept(events: seq<Event>, k: nat, i: nat)
    requires Run(events).Some?
    ensures k < |events| && Run(events[..k]).Some? && TurnsAwayAt(Run(events[..k]).value, events[k], i) ==>
              TurnedAway(Run(events).value, i)
  {
    hide Run, TurnedAway, TurnsAwayAt;
    if k < |events| && Run(events[..k]).Some? && TurnsAwayAt(Run(events[..k]).value, events[k], i) {
      StaysAway(events, k, i);
    }
  }

  lemma {:induction false} StaysAway(events: seq<Event>, k: nat, i: nat)
    requires Run(events).Some? && k < |events|
    requires Run(events[..k]).Some? && TurnsAwayAt(Run(events[..k]).value, events[k], i)
    ensures TurnedAway(Run(events).value, i)
    decreases |events|
  {
    hide Run, Key, TurnedAway, TurnsAwayAt, Apply, Enabled, Registry;
    var before, e := events[..|events| - 1], events[|events| - 1];
    assert events == before + [e];
    LastStep(before, e);
    if k == |events| - 1 {
      assert events[..k] == before;
      RegistryAlways(before);
      EarlyUnbound(before, i);
      StillEarly(Run(before).value, e, i);
      TurnsAway(Run(before).value, e, i);
    } else {
      assert before[..k] == events[..k] && before[k] == events[k];
      StaysAway(before, k, i);
      AwayStays(Run(before).value, e, i);
    }
  }

  lemma LastStep(before: seq<Event>, e: Event)
    requires Run(before + [e]).Some?
    ensures Run(before).Some? && Enabled(Run(before).value, e)
    ensures Run(before + [e]) == Some(Apply(Run(before).value, e))
  {
    hide Enabled, Apply;
    assert (before + [e])[..|before|] == before;
  }

  lemma StillEarly(s: State, e: Event, i: nat)
    requires Enabled(s, e) && TurnsAwayAt(s, e, i)
    ensures i < |s.calls| && Early(s.calls[i].pc)
  {
    hide Key;
  }

  lemma TurnsAway(s: State, e: Event, i: nat)
    requires Enabled(s, e) && TurnsAwayAt(s, e, i) && Registry(s) && i < |s.calls| && s.calls[i].bound == ""
    ensures TurnedAway(Apply(s, e), i)
  {
    hide Key;
    assert ListenerOk(s.calls[i]);
  }

  /** No call for udp or for a unix socket ever listens. */
  lemma OnlyTcpListens(events: seq<Event>, i: nat)
    requires Run(events).Some?
    ensures var s := Run(events).value; i < |s.calls| && s.calls[i].open ==> s.calls[i].kind.Tcp?
  {
    hide Run, Exclusive, TableOk;
    RegistryAlways(events);
    var s := Run(events).value;
    if i < |s.calls| {
      assert ListenerOk(s.calls[i]);
    }
  }

  /** A call that does not find its address goes on: if the OS gives it a listener, it becomes the session
      of its address. */
  lemma NewIsRegistered(events: seq<Event>, i: nat, port: nat)
    requires Run(events).Some?
    ensures var s := Run(events).value;
            && Enabled(s, Check(i)) && KeyOf(s.calls[i]) !in s.sessions && s.calls[i].kind.Tcp?
            && 0 < port < 0x1_0000 && Free(s, Endpoint(s.calls[i].addr, port)) ==>
              var t := Run(events + [Check(i)] + [Bind(i, port)] + [Insert(i)]);
              t.Some? && Registered(t.value, i) && t.value.calls[i].open && t.value.calls[i].pc.Serving?
  {
    hide Run, Key, Endpoint;
    var s := Run(events).value;
    if && Enabled(s, Check(i)) && KeyOf(s.calls[i]) !in s.sessions && s.calls[i].kind.Tcp?
       && 0 < port < 0x1_0000 && Free(s, Endpoint(s.calls[i].addr, port)) {
      var t := Apply(s, Check(i));
      var u := Apply(t, Bind(i, port));
      Extend(events, s, Check(i), t);
      Extend(events + [Check(i)], t, Bind(i, port), u);
      Extend(events + [Check(i)] + [Bind(i, port)], u, Insert(i), Apply(u, Insert(i)));
    }
  }

  // ---- entries and listeners ----

  /** An entry goes by StopReverseForward for its key or by a failed send of a call with that key, and in
      no other way; in particular it outlives an accept loop that fails. */
  lemma EntryStays(events: seq<Event>, e: Event, key: string)
    requires Run(events).Some? && Enabled(Run(events).value, e) && key in Run(events).value.sessions
    ensures var s, t := Run(events).value, Apply(Run(events).value, e);
            && (key in t.sessions <==>
                  && !(e.Stop? && Key(e.kind, e.addr) == key)
                  && !(e.Unregister? && KeyOf(s.calls[e.i]) == key))
            && (key in t.sessions && t.sessions[key] != s.sessions[key] ==> e.Insert?)
  {
    hide Run, OpenAddr, ParseOpen, Key, Lookup, Free, Endpoint;
  }

  /** StopReverseForward for a registered address: the entry is gone, its listener is closed, every other
      listener and every stream is as before; for any other address nothing changes. */
  lemma StopEnds(events: seq<Event>, kind: Kind, addr: string)
    requires Run(events).Some?
    ensures var s, t := Run(events).value, Apply(Run(events).value, Stop(kind, addr));
            && Key(kind, addr) !in t.sessions && t.rpcs == s.rpcs && |t.calls| == |s.calls|
            && (forall key :: key in s.sessions && key != Key(kind, addr) ==>
                                key in t.sessions && t.sessions[key] == s.sessions[key])
            && (forall i :: 0 <= i < |s.calls| ==>
                              t.calls[i] == s.calls[i].(open := s.calls[i].open && !Named(s, kind, addr, i)))
  {
    hide Run, Key;
    RegistryAlways(events);
  }

  /** Call i is the session of this address. */
  predicate Named(s: State, kind: Kind, addr: string, i: nat) {
    Key(kind, addr) in s.sessions && s.sessions[Key(kind, addr)] == i
  }

  lemma IdStep(s: State, e: Event, i: nat)
    requires Enabled(s, e) && i < |Apply(s, e).calls| && (i < |s.calls| ==> s.calls[i].cid < UINT64)
    ensures Apply(s, e).calls[i].cid < UINT64
  {
    hide OpenAddr, ParseOpen, Key, Lookup, Free, Endpoint;
  }

  /** Connection numbers are 64-bit numbers in every run, however many connections are accepted. */
  lemma {:induction false} NumbersFit(events: seq<Event>, i: nat)
    requires Run(events).Some?
    ensures var s := Run(events).value; i < |s.calls| ==> s.calls[i].cid < UINT64
  {
    if events != [] {
      var before := events[..|events| - 1];
      NumbersFit(before, i);
      hide Enabled, Apply;
      if i < |Run(events).value.calls| {
        IdStep(Run(before).value, events[|events| - 1], i);
      }
    }
  }

  // ---- every call and every stream can come to its end ----

  function NextOf(c: Call, i: nat): Event {
    match c.pc
    case Checking => Check(i)
    case Listening => BindFails(i)
    case Bound => Insert(i)
    case Serving => AcceptFails(i)
    case Took(_) => Record(i)
    case Accepted => SendFails(i)
    case Failing => Unregister(i)
    case _ => Leave(i)
  }

  function StepsLeft(pc: Pc): nat {
    match pc
    case Checking => 8
    case Listening => 7
    case Bound => 6
    case Took(_) => 5
    case Accepted => 4
    case Serving => 3
    case Failing => 2
    case Leaving => 1
    case Returned => 0
  }

  lemma NextEnds(s: State, i: nat)
    requires i < |s.calls| && !s.calls[i].pc.Returned?
    ensures var e := NextOf(s.calls[i], i);
            && Enabled(s, e) && i < |Apply(s, e).calls|
            && StepsLeft(Apply(s, e).calls[i].pc) < StepsLeft(s.calls[i].pc)
  {
    hide OpenAddr, ParseOpen, Key, Lookup, Free, Endpoint;
  }

  /** Any kind of call can start in any state, and from every reachable state each call can be brought to
      return, and then its listener is closed. */
  lemma {:induction false} CallEnds(events: seq<Event>, i: nat) returns (all: seq<Event>)
    requires Run(events).Some? && i < |Run(events).value.calls|
    ensures events <= all && Run(all).Some? && i < |Run(all).value.calls|
    ensures Run(all).value.calls[i].pc.Returned? && !Run(all).value.calls[i].open
    decreases StepsLeft(Run(events).value.calls[i].pc)
  {
    var s := Run(events).value;
    if s.calls[i].pc.Returned? {
      RegistryAlways(events);
      hide Run, Key, Exclusive, TableOk;
      assert ListenerOk(s.calls[i]);
      all := events;
    } else {
      NextEnds(s, i);
      hide Run, Enabled, Apply, StepsLeft, NextOf;
      var e := NextOf(s.calls[i], i);
      Extend(events, s, e, Apply(s, e));
      all := CallEnds(events + [e], i);
    }
  }

  lemma CallStarts(events: seq<Event>, kind: Kind, addr: string)
    requires Run(events).Some?
    ensures var t := Run(events + [Start(kind, addr)]);
            && t.Some? && |t.value.calls| == |Run(events).value.calls| + 1
            && var c := t.value.calls[|Run(events).value.calls|];
            && c.kind == kind && c.addr == addr && c.pc.Checking? && t.value.sessions == Run(events).value.sessions
  {
    hide Run;
    var s := Run(events).value;
    Extend(events, s, Start(kind, addr), Apply(s, Start(kind, addr)));
  }

  /** The sessions streams have found exist. */
  predicate SessionsExist(s: State) {
    forall r :: 0 <= r < |s.rpcs| && (s.rpcs[r].pc.Found? || s.rpcs[r].pc.Joined?) ==>
                  s.rpcs[r].pc.session < |s.calls|
  }

  lemma SessionsExistStep(s: State, e: Event)
    requires Enabled(s, e) && TableOk(s) && SessionsExist(s)
    ensures SessionsExist(Apply(s, e))
  {
    NoFewerCalls(s, e);
    hide OpenAddr, ParseOpen, Key, Free, Endpoint;
  }

  lemma {:induction false} SessionsAlwaysExist(events: seq<Event>)
    requires Run(events).Some?
    ensures SessionsExist(Run(events).value)
  {
    if events != [] {
      var before := events[..|events| - 1];
      SessionsAlwaysExist(before);
      RegistryAlways(before);
      hide SessionsExist, Enabled, Apply, Exclusive, TableOk, ListenersOk;
      SessionsExistStep(Run(before).value, events[|events| - 1]);
    }
  }

  function NextOfStream(pc: RpcPc, r: nat): Event {
    match pc
    case Arriving => FindSession(r)
    case Found(_, _) => FindConn(r)
    case _ => Finish(r)
  }

  function StreamStepsLeft(pc: RpcPc): nat {
    match pc
    case Arriving => 3
    case Found(_, _) => 2
    case Joined(_, _, _) => 1
    case _ => 0
  }

  lemma NextStreamEnds(s: State, r: nat)
    requires r < |s.rpcs| && SessionsExist(s) && StreamStepsLeft(s.rpcs[r].pc) > 0
    ensures var e := NextOfStream(s.rpcs[r].pc, r);
            && Enabled(s, e) && r < |Apply(s, e).rpcs|
            && StreamStepsLeft(Apply(s, e).rpcs[r].pc) < StreamStepsLeft(s.rpcs[r].pc)
  {
    hide OpenAddr, ParseOpen, Key, Free, Endpoint;
  }

  /** From every reachable state each stream can be brought to its end: refused, or finished with its
      connection. */
  lemma {:induction false} StreamEnds(events: seq<Event>, r: nat) returns (all: seq<Event>)
    requires Run(events).Some? && r < |Run(events).value.rpcs|
    ensures events <= all && Run(all).Some? && r < |Run(all).value.rpcs|
    ensures Run(all).value.rpcs[r].pc.Refused? || Run(all).value.rpcs[r].pc.Finished?
    decreases StreamStepsLeft(Run(events).value.rpcs[r].pc)
  {
    var s := Run(events).value;
    if StreamStepsLeft(s.rpcs[r].pc) == 0 {
      all := events;
    } else {
      SessionsAlwaysExist(events);
      NextStreamEnds(s, r);
      hide Run, Enabled, Apply, StreamStepsLeft, NextOfStream;
      var e := NextOfStream(s.rpcs[r].pc, r);
      Extend(events, s, e, Apply(s, e));
      all := StreamEnds(events + [e], r);
    }
  }
}
