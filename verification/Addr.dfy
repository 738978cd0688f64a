/** Addresses of the form <kind>:<addr>, and the strings the launchers print for them. */
module Addr {
  import opened Bytes
  import opened Text

  const QEMU_HOST := "qemu"
  const QEMU_GUEST := "qemu-guest"
  const VSOCK_HOST := "vsock-host"
  const VSOCK_GUEST := "vsock-guest"
  const QEMU_CTRL := "qemu2"
  const UNIX := "unix"
  const TCP := "tcp"
  const MUX := "mux"
  const FD := "fd"
  const USB := "usb"

  predicate ValidKind(kind: string) {
    kind in [QEMU_HOST, QEMU_CTRL, QEMU_GUEST, VSOCK_HOST, VSOCK_GUEST, UNIX, TCP, MUX, FD, USB]
  }

  datatype ParsedAddr = ParsedAddr(kind: string, addr: string, socketName: string, fd: int, muxAddr: Option<ParsedAddr>)

  const INT64: int := 0x8000_0000_0000_0000

  /** strconv.Atoi on a 64-bit platform: an optional sign, then digits, in range. */
  function Atoi(s: string): Option<int> {
    var signed := s != [] && (s[0] == '-' || s[0] == '+');
    var digits := if signed then s[1..] else s;
    if digits == [] then None
    else
      match ReadDigits(digits)
      case None => None
      case Some(n) =>
        var v: int := if signed && s[0] == '-' then -(n as int) else n;
        if -INT64 <= v < INT64 then Some(v) else None
  }

  /** The part after the kind, for every kind but mux. */
  function ParseRest(kind: string, rest: string): Option<ParsedAddr> {
    if kind == VSOCK_HOST || kind == QEMU_HOST then
      match SplitFirst(rest, ':')
      case None => None
      case Some((host, socket)) => Some(ParsedAddr(kind, host, socket, 0, None))
    else if kind == VSOCK_GUEST then Some(ParsedAddr(kind, "", rest, 0, None))
    else if kind == FD then
      match Atoi(rest)
      case None => None
      case Some(fd) => Some(ParsedAddr(kind, "", "", fd, None))
    else if kind == QEMU_GUEST || kind == QEMU_CTRL then Some(ParsedAddr(kind, rest, rest, 0, None))
    else Some(ParsedAddr(kind, rest, "", 0, None))
  }

  /** ParseAddr; it ends on every string because each mux: level is taken off the front. */
  function ParseAddr(s: string): Option<ParsedAddr>
    decreases |s|
  {
    match SplitFirst(s, ':')
    case None => None
    case Some((kind, rest)) =>
      if !ValidKind(kind) then None
      else if kind == MUX then
        match ParseAddr(rest)
        case None => None
        case Some(inner) => Some(ParsedAddr(kind, "", "", 0, Some(inner)))
      else ParseRest(kind, rest)
  }

  /** What a kind and the rest parse to, for every valid kind but mux. */
  lemma ParseKind(kind: string, rest: string)
    requires ValidKind(kind)
    ensures kind != MUX ==> ParseAddr(kind + ":" + rest) == ParseRest(kind, rest)
    ensures kind == MUX ==> ParseAddr(kind + ":" + rest) ==
                            match ParseAddr(rest)
                            case None => None
                            case Some(inner) => Some(ParsedAddr(kind, "", "", 0, Some(inner)))
  {
    hide ParseRest;
    NoColon(kind);
    SplitJoin(kind, rest, ':');
    assert kind + ":" + rest == kind + [':'] + rest;
  }

  lemma NoColon(kind: string)
    requires ValidKind(kind)
    ensures ':' !in kind
  {
  }

  /** What each kind without a second part means, for every rest. */
  lemma PlainKinds(rest: string)
    ensures ParseAddr("unix:" + rest) == Some(ParsedAddr("unix", rest, "", 0, None))
    ensures ParseAddr("tcp:" + rest) == Some(ParsedAddr("tcp", rest, "", 0, None))
    ensures ParseAddr("usb:" + rest) == Some(ParsedAddr("usb", rest, "", 0, None))
    ensures ParseAddr("qemu-guest:" + rest) == Some(ParsedAddr("qemu-guest", rest, rest, 0, None))
    ensures ParseAddr("qemu2:" + rest) == Some(ParsedAddr("qemu2", rest, rest, 0, None))
    ensures ParseAddr("vsock-guest:" + rest) == Some(ParsedAddr("vsock-guest", "", rest, 0, None))
  {
    hide ParseAddr, SplitFirst, Atoi;
    ParseKind("unix", rest);
    ParseKind("tcp", rest);
    ParseKind("usb", rest);
    ParseKind("qemu-guest", rest);
    ParseKind("qemu2", rest);
    ParseKind("vsock-guest", rest);
    assert "unix" + ":" == "unix:" && "tcp" + ":" == "tcp:" && "usb" + ":" == "usb:";
    assert "qemu-guest" + ":" == "qemu-guest:" && "qemu2" + ":" == "qemu2:" && "vsock-guest" + ":" == "vsock-guest:";
  }

  /** The two kinds with a second part need it; a vsock host address means what it says exactly when the
      first part holds no ":". */
  lemma TwoParts(rest: string, cid: string, port: string)
    ensures ':' !in rest ==> ParseAddr("vsock-host:" + rest) == None && ParseAddr("qemu:" + rest) == None
    ensures ParseAddr("vsock-host:" + cid + ":" + port) == Some(ParsedAddr("vsock-host", cid, port, 0, None)) <==>
            ':' !in cid
  {
    hide ParseAddr;
    ParseKind("vsock-host", rest);
    ParseKind("qemu", rest);
    assert "vsock-host" + ":" == "vsock-host:" && "qemu" + ":" == "qemu:";
    var both := cid + ":" + port;
    assert "vsock-host:" + cid + ":" + port == "vsock-host" + ":" + both;
    assert both == cid + [':'] + port;
    ParseKind("vsock-host", both);
    SplitJoin(cid, port, ':');
  }

  /** Printed numbers are read back within 64 bits. */
  lemma AtoiPrinted(n: nat)
    ensures Atoi(Decimal(n)) == Atoi("+" + Decimal(n)) == if n < INT64 then Some(n) else None
    ensures var minus: int := -(n as int); Atoi("-" + Decimal(n)) == if n <= INT64 then Some(minus) else None
  {
    hide Decimal, ReadDigits;
    var s := Decimal(n);
    DecimalReads(n);
    FirstIsDigit(n);
    assert ("-" + s)[1..] == s && ("+" + s)[1..] == s;
  }

  /** What an address of kind fd means: the number that follows, or nothing. */
  lemma DescriptorMeans(rest: string)
    ensures ParseAddr("fd:" + rest) ==
            match Atoi(rest)
            case None => None
            case Some(fd) => Some(ParsedAddr(FD, "", "", fd, None))
  {
    hide ParseAddr, SplitFirst, Atoi;
    ParseKind(FD, rest);
    assert FD + ":" == "fd:";
  }

  lemma FirstIsDigit(n: nat)
    ensures Decimal(n)[0] != '-' && Decimal(n)[0] != '+'
  {
    DecimalReads(n);
    var s := Decimal(n);
    if s[0] == '-' || s[0] == '+' {
      NotDigits(s, s[0]);
    }
  }

  /** Anything else is refused: no ":" at all, or a kind that is none of the ten. */
  lemma OthersRefused(s: string, kind: string, rest: string)
    ensures ':' !in s ==> ParseAddr(s) == None
    ensures ':' !in kind &&
            kind !in {"qemu", "qemu-guest", "qemu2", "vsock-host", "vsock-guest", "unix", "tcp", "mux", "fd", "usb"} ==>
              ParseAddr(kind + ":" + rest) == None
  {
    SplitJoin(kind, rest, ':');
    assert kind + ":" + rest == kind + [':'] + rest;
  }

  function Nested(depth: nat, s: string): string {
    if depth == 0 then s else MUX + ":" + Nested(depth - 1, s)
  }

  function Wrapped(depth: nat, p: Option<ParsedAddr>): Option<ParsedAddr> {
    if depth == 0 || p.None? then p else Some(ParsedAddr(MUX, "", "", 0, Wrapped(depth - 1, p)))
  }

  /** Any depth of mux: nesting parses to that depth of nesting, or fails where the inside fails. */
  lemma {:induction false} MuxNests(depth: nat, s: string)
    ensures ParseAddr(Nested(depth, s)) == Wrapped(depth, ParseAddr(s))
  {
    hide ParseAddr, ParseRest;
    if depth > 0 {
      MuxNests(depth - 1, s);
      ParseKind(MUX, Nested(depth - 1, s));
    }
  }

  /** The address the bootstrapper prints for the host side of a qemu pipe means what it says exactly
      when the directory holds no ":". */
  lemma QemuPrinted(dir: string, socket: string)
    ensures ParseAddr("qemu:" + dir + ":" + socket) == Some(ParsedAddr(QEMU_HOST, dir, socket, 0, None)) <==>
            ':' !in dir
  {
    hide ParseAddr;
    var rest := dir + ":" + socket;
    assert "qemu:" + dir + ":" + socket == QEMU_HOST + ":" + rest;
    assert rest == dir + [':'] + socket;
    ParseKind(QEMU_HOST, rest);
    SplitJoin(dir, socket, ':');
  }

  /** The address the daemon hands to its child, kind and Addr joined by ":". */
  function Printed(p: ParsedAddr): string {
    p.kind + ":" + p.addr
  }

  /** The printed address parses back to the same address exactly for the kinds whose Addr is the
      whole rest of the address. */
  lemma ReparseExactly(s: string, p: ParsedAddr)
    requires ParseAddr(s) == Some(p)
    ensures ParseAddr(Printed(p)) == Some(p) <==>
              || p.kind in [UNIX, TCP, USB, QEMU_GUEST, QEMU_CTRL]
              || (p.kind == VSOCK_GUEST && p.socketName == "")
  {
    var (kind, rest) := SplitFirst(s, ':').value;
    if kind == MUX {
      ParseKind(p.kind, p.addr);
      assert ParseAddr("") == None;
    } else {
      ReparseRest(kind, rest, p);
    }
  }

  lemma ReparseRest(kind: string, rest: string, p: ParsedAddr)
    requires ValidKind(kind) && kind != MUX && ParseRest(kind, rest) == Some(p)
    ensures ParseAddr(Printed(p)) == Some(p) <==>
              || p.kind in [UNIX, TCP, USB, QEMU_GUEST, QEMU_CTRL]
              || (p.kind == VSOCK_GUEST && p.socketName == "")
  {
    hide ParseAddr, SplitFirst;
    assert p.kind == kind;
    ParseKind(kind, p.addr);
    assert Atoi("") == None;
  }
}
