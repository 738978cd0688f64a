/** When an insertion can replace a session whose listener is open: the addresses that leave the port to
    the OS and are not replaced by the address it chose. */
module ReverseForwardPorts {
  import opened Bytes
  import opened Text
  import opened ReverseForward
  import opened ReverseForwardProof

  /** A tcp call on `addr`, with its listener on the port the OS chose for it once it has bound. */
  function Asked(addr: string, pc: Pc, port: nat): Call {
    Call(Tcp, addr, if Early(pc) then "" else Endpoint(addr, port), pc, !Early(pc), 0, map[], [], [], 0, {})
  }

  /** Two ports make two OS addresses. */
  lemma TwoEndpoints(addr: string)
    requires PicksPort(addr)
    ensures Endpoint(addr, 1) != Endpoint(addr, 2)
  {
    hide LastPart, ZeroPort, Decimal;
    DecimalReads(1);
    DecimalReads(2);
    assert Decimal(1) != Decimal(2);
    var prefix := if addr == LOCALHOST_ANY then "localhost:"
                  else if addr == "" then ":"
                  else addr[..|addr| - |LastPart(addr)|];
    SamePrefix(prefix, Decimal(1), Decimal(2));
  }

  lemma SamePrefix<T>(p: seq<T>, a: seq<T>, b: seq<T>)
    requires a != b
    ensures p + a != p + b
  {
    assert (p + a)[|p|..] == a && (p + b)[|p|..] == b;
  }

  /** Both calls look the address up before either has inserted. */
  lemma BothCheck(addr: string) returns (es: seq<Event>)
    ensures Run(es) == Some(State(map[], [Asked(addr, Listening, 1), Asked(addr, Listening, 2)], []))
  {
    assert Run([]) == Some(INIT);
    hide Run, Endpoint, Key;
    hide Decimal;
    var c, l := Asked(addr, Checking, 1), Asked(addr, Listening, 1);
    var s1 := State(map[], [c], []);
    var s2 := State(map[], [c, c], []);
    var s3 := State(map[], [l, c], []);
    es := [];
    Extend(es, INIT, Start(Tcp, addr), s1); es := es + [Start(Tcp, addr)];
    Extend(es, s1, Start(Tcp, addr), s2); es := es + [Start(Tcp, addr)];
    Extend(es, s2, Check(0), s3); es := es + [Check(0)];
    Extend(es, s3, Check(1), State(map[], [l, l], [])); es := es + [Check(1)];
  }

  /** The first one binds and inserts its session, then the second one binds. */
  lemma BothBind(es: seq<Event>, addr: string) returns (fs: seq<Event>)
    requires PicksPort(addr) && addr != LOCALHOST_ANY
    requires Run(es) == Some(State(map[], [Asked(addr, Listening, 1), Asked(addr, Listening, 2)], []))
    ensures Run(fs) ==
            Some(State(map[][Key(Tcp, addr) := 0], [Asked(addr, Serving, 1), Asked(addr, Bound, 2)], []))
  {
    TwoEndpoints(addr);
    hide Run, Endpoint, Key, PicksPort;
    FirstBinds(es, addr);
    SecondBinds(es + [Bind(0, 1)] + [Insert(0)], addr);
    fs := es + [Bind(0, 1)] + [Insert(0)] + [Bind(1, 2)];
  }

  lemma FirstBinds(es: seq<Event>, addr: string)
    requires addr != LOCALHOST_ANY
    requires Run(es) == Some(State(map[], [Asked(addr, Listening, 1), Asked(addr, Listening, 2)], []))
    ensures Run(es + [Bind(0, 1)] + [Insert(0)]) ==
            Some(State(map[][Key(Tcp, addr) := 0], [Asked(addr, Serving, 1), Asked(addr, Listening, 2)], []))
  {
    hide Run, Endpoint, Key;
    var second := Asked(addr, Listening, 2);
    var s0 := State(map[], [Asked(addr, Listening, 1), second], []);
    var s1 := State(map[], [Asked(addr, Bound, 1), second], []);
    var s2 := State(map[][Key(Tcp, addr) := 0], [Asked(addr, Serving, 1), second], []);
    Extend(es, s0, Bind(0, 1), s1);
    Extend(es + [Bind(0, 1)], s1, Insert(0), s2);
  }

  lemma SecondBinds(es: seq<Event>, addr: string)
    requires addr != LOCALHOST_ANY && Endpoint(addr, 1) != Endpoint(addr, 2)
    requires Run(es) ==
             Some(State(map[][Key(Tcp, addr) := 0], [Asked(addr, Serving, 1), Asked(addr, Listening, 2)], []))
    ensures Run(es + [Bind(1, 2)]) ==
            Some(State(map[][Key(Tcp, addr) := 0], [Asked(addr, Serving, 1), Asked(addr, Bound, 2)], []))
  {
    hide Run, Endpoint, Key;
    var table: map<string, nat> := map[][Key(Tcp, addr) := 0];
    var s0 := State(table, [Asked(addr, Serving, 1), Asked(addr, Listening, 2)], []);
    Extend(es, s0, Bind(1, 2), State(table, [Asked(addr, Serving, 1), Asked(addr, Bound, 2)], []));
  }

  /**
   Two calls on an address such as "127.0.0.1:0": the second insertion replaces the session of the
   first, whose listener stays open and is reached by no entry any more.
   */
  lemma PortZeroReplaces(addr: string) returns (es: seq<Event>)
    requires PicksPort(addr) && addr != LOCALHOST_ANY
    ensures Run(es).Some? && Replaces(Run(es).value, 1, addr)
    ensures var t := Apply(Run(es).value, Insert(1));
            && t.calls[0].open && t.calls[0].pc.Serving? && forall key :: key in t.sessions ==> t.sessions[key] != 0
  {
    hide Run, Endpoint, PicksPort;
    es := BothCheck(addr);
    es := BothBind(es, addr);
  }

  /** "127.0.0.1:0" is such an address. */
  lemma SuchAnAddress()
    ensures PicksPort("127.0.0.1:0") && "127.0.0.1:0" != LOCALHOST_ANY
  {
    SplitJoin("127.0.0.1", "0", ':');
    assert "127.0.0.1:0" == "127.0.0.1" + [':'] + "0";
    assert LastPart("127.0.0.1:0") == LastPart("0") == "0";
    ZeroReads();
  }

  /**
   The exact condition: some interleaving lets an insertion on an address replace a session whose
   listener is open if and only if the OS picks the port and the address is not "localhost:0".
   */
  lemma ReplacesExactly(addr: string)
    ensures (exists es: seq<Event>, i: nat :: Run(es).Some? && Replaces(Run(es).value, i, addr)) <==>
            PicksPort(addr) && addr != LOCALHOST_ANY
  {
    hide Run, PicksPort, Replaces;
    if PicksPort(addr) && addr != LOCALHOST_ANY {
      var es := PortZeroReplaces(addr);
      assert Run(es).Some? && Replaces(Run(es).value, 1, addr);
    } else {
      forall es: seq<Event>, i: nat | Run(es).Some?
        ensures !Replaces(Run(es).value, i, addr)
      {
        InsertNeverReplacesOpen(es, i, addr);
      }
    }
  }
}
