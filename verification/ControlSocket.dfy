/** The messages of the qemu2 control channel: fixed-size SocketControl records. */
module ControlCodec {
  import opened Bytes
  import opened Framing

  datatype Sort = Identity | Open | Close

  /** SocketControl: `required Sort sort = 1; required fixed32 fd = 2`. */
  datatype Message = Message(sort: Sort, fd: nat)

  const SIZE := 7

  predicate Valid(m: Message) {
    m.fd < LIMIT
  }

  function Number(s: Sort): nat {
    match s
    case Identity => 0
    case Open => 1
    case Close => 2
  }

  /** A base 128 varint: seven bits a byte, lowest first, the top bit set on all but the last. */
  function Varint(n: nat): seq<byte> {
    if n < 128 then [n] else [128 + n % 128] + Varint(n / 128)
  }

  /** Reads a varint; None when the bytes end first. */
  function ReadVarint(b: seq<byte>): (r: Option<(nat, seq<byte>)>)
    ensures r.Some? ==> |r.value.1| < |b|
  {
    if b == [] then None
    else
      var low: int := b[0];
      if low < 128 then Some((low, b[1..]))
      else
        match ReadVarint(b[1..])
        case None => None
        case Some((high, rest)) => Some((low - 128 + 128 * high, rest))
  }

  /** A field key: the field number and the wire type (0 varint, 5 four bytes). */
  function FieldKey(number: nat, wire: nat): nat {
    8 * number + wire
  }

  /** proto.Marshal. */
  function Marshal(m: Message): seq<byte> {
    Varint(FieldKey(1, 0)) + Varint(Number(m.sort)) + Varint(FieldKey(2, 5)) + LE32(m.fd)
  }

  /** proto.Unmarshal of the two required fields, in any order, the last occurrence counting. */
  function Fields(b: seq<byte>, sort: Option<Sort>, fd: Option<nat>): Option<Message>
    decreases |b|
  {
    if b == [] then
      (if sort.Some? && fd.Some? then Some(Message(sort.value, fd.value)) else None)
    else
      match ReadVarint(b)
      case None => None
      case Some((key, rest)) =>
        if key == FieldKey(1, 0) then (
          match ReadVarint(rest)
          case None => None
          case Some((v, more)) =>
            Fields(more, if v == 0 then Some(Identity) else if v == 1 then Some(Open)
                         else if v == 2 then Some(Close) else sort, fd)
        )
        else if key == FieldKey(2, 5) then
          if |rest| < 4 then None else Fields(rest[4..], sort, Some(FromLE32(rest[..4])))
        else None
  }

  function Unmarshal(b: seq<byte>): Option<Message> {
    Fields(b, None, None)
  }

  lemma {:induction false} VarintRoundTrip(n: nat, rest: seq<byte>)
    ensures ReadVarint(Varint(n) + rest) == Some((n, rest))
  {
    var b := Varint(n) + rest;
    if n < 128 {
      assert b[1..] == rest;
    } else {
      VarintRoundTrip(n / 128, rest);
      assert b[1..] == Varint(n / 128) + rest;
    }
  }

  /** Every message is seven bytes long: a small varint after each of two one-byte keys, and four
      bytes of descriptor. */
  lemma FixedSize(m: Message)
    ensures |Marshal(m)| == SIZE
  {
  }

  /** The seven bytes, as the encoding guide has them: key 0x08 and the number of the sort, key 0x15 and
      the descriptor, lowest byte first. */
  lemma MarshalBytes(m: Message)
    ensures Marshal(m) ==
            [0x08, match m.sort case Identity => 0 case Open => 1 case Close => 2, 0x15,
             m.fd % 0x100, m.fd / 0x100 % 0x100, m.fd / 0x1_0000 % 0x100, m.fd / 0x100_0000 % 0x100]
  {
    var n := m.fd;
    DivTwice(n);
    assert LE(n, 4) == [n % 0x100] + LE(n / 0x100, 3);
    assert LE(n / 0x100, 3) == [n / 0x100 % 0x100] + LE(n / 0x100 / 0x100, 2);
    assert LE(n / 0x100 / 0x100, 2) == [n / 0x100 / 0x100 % 0x100] + LE(n / 0x100 / 0x100 / 0x100, 1);
    assert LE(n / 0x100 / 0x100 / 0x100, 1) == [n / 0x100 / 0x100 / 0x100 % 0x100];
  }

  lemma DivTwice(n: nat)
    ensures n / 0x100 / 0x100 == n / 0x1_0000 && n / 0x100 / 0x100 / 0x100 == n / 0x100_0000
  {
  }

  lemma UnmarshalMarshal(m: Message)
    requires Valid(m)
    ensures Unmarshal(Marshal(m)) == Some(m)
  {
    hide Varint, LE32;
    var k1, v, k2, f := Varint(FieldKey(1, 0)), Varint(Number(m.sort)), Varint(FieldKey(2, 5)), LE32(m.fd);
    var b3 := k2 + f;
    var b2 := v + b3;
    var b1 := k1 + b2;
    assert Marshal(m) == b1;
    VarintRoundTrip(FieldKey(1, 0), b2);
    VarintRoundTrip(Number(m.sort), b3);
    VarintRoundTrip(FieldKey(2, 5), f);
    OneByte();
    assert |v| == 1 by {
      SmallVarint(Number(m.sort));
    }
    HeaderValue(m.fd);
    assert f[..4] == f && f[4..] == [];
    assert Fields(b3, Some(m.sort), None) == Fields(f[4..], Some(m.sort), Some(FromLE32(f[..4])));
    assert Fields(b1, None, None) == Fields(b3, Some(m.sort), None);
  }

  lemma SmallVarint(n: nat)
    requires n < 128
    ensures |Varint(n)| == 1
  {
  }

  lemma OneByte()
    ensures |Varint(FieldKey(1, 0))| == 1 && |Varint(FieldKey(2, 5))| == 1
  {
  }

  /** Both fields are required: two bytes at least for the sort, five for the descriptor. */
  lemma {:induction false} FieldsNeed(b: seq<byte>, sort: Option<Sort>, fd: Option<nat>)
    requires Fields(b, sort, fd).Some?
    ensures |b| >= (if sort.None? then 2 else 0) + (if fd.None? then 5 else 0)
    decreases |b|
  {
    if b != [] {
      var (key, rest) := ReadVarint(b).value;
      if key == FieldKey(1, 0) {
        var (v, more) := ReadVarint(rest).value;
        var sort' := if v == 0 then Some(Identity) else if v == 1 then Some(Open)
                     else if v == 2 then Some(Close) else sort;
        FieldsNeed(more, sort', fd);
      } else if key == FieldKey(2, 5) {
        FieldsNeed(rest[4..], sort, Some(FromLE32(rest[..4])));
      }
    }
  }

  /** A record shorter than a message is refused. */
  lemma ShortRecordRefused(b: seq<byte>)
    requires |b| < SIZE
    ensures Unmarshal(b) == None
  {
    hide Fields;
    if Unmarshal(b).Some? {
      FieldsNeed(b, None, None);
    }
  }

  function MarshalAll(ms: seq<Message>): seq<byte> {
    if ms == [] then [] else Marshal(ms[0]) + MarshalAll(ms[1..])
  }

  /** What fixed-size reads make of a stream: the messages before the first record that is not one,
      and the bytes from there on. */
  function Received(stream: seq<byte>): (seq<Message>, seq<byte>)
    decreases |stream|
  {
    if |stream| < SIZE || Unmarshal(stream[..SIZE]).None? then ([], stream)
    else
      var (ms, rest) := Received(stream[SIZE..]);
      ([Unmarshal(stream[..SIZE]).value] + ms, rest)
  }

  /** Fixed-size reads of any messages sent, and of anything after them, recover exactly those
      messages and stand where the rest begins. */
  lemma {:induction false} ReceivedSent(ms: seq<Message>, rest: seq<byte>)
    requires forall m :: m in ms ==> Valid(m)
    ensures Received(MarshalAll(ms) + rest) == (ms + Received(rest).0, Received(rest).1)
  {
    hide Marshal, Unmarshal;
    if ms == [] {
      assert MarshalAll(ms) + rest == rest;
      assert ms + Received(rest).0 == Received(rest).0;
    } else {
      var m, more := ms[0], MarshalAll(ms[1..]) + rest;
      FixedSize(m);
      UnmarshalMarshal(m);
      ReceivedSent(ms[1..], rest);
      var b := MarshalAll(ms) + rest;
      Assoc(Marshal(m), MarshalAll(ms[1..]), rest);
      assert b[..SIZE] == Marshal(m) && b[SIZE..] == more;
      assert ms + Received(rest).0 == [m] + (ms[1..] + Received(rest).0);
    }
  }

  /** The receive loop of controlSocketHandler; `rest` is what it has not accepted when it returns. */
  method Receive(stream: seq<byte>) returns (got: seq<Message>, rest: seq<byte>)
    ensures (got, rest) == Received(stream)
  {
    hide Unmarshal;
    got, rest := [], stream;
    assert got + Received(rest).0 == Received(rest).0;
    while |rest| >= SIZE
      invariant Received(stream) == (got + Received(rest).0, Received(rest).1)
      decreases |rest|
    {
      var r := Unmarshal(rest[..SIZE]);
      if r.None? {
        assert got + [] == got;
        return;
      }
      assert got + Received(rest).0 == (got + [r.value]) + Received(rest[SIZE..]).0;
      got := got + [r.value];
      rest := rest[SIZE..];
    }
    assert got + [] == got;
  }
}

/**
 The control socket of the qemu2 transport: connections registered by virtual descriptor, and the
 two Close operations that call each other.
 */
module ControlSocket {
  import opened Bytes

  /** A ControlSocketConn: its descriptor, whether it is closed, and the connection it wraps. The
      connection handed to a client wraps the one that sent the identity message. */
  datatype Conn = Conn(fd: nat, closed: bool, inner: Option<nat>)

  type Conns = map<nat, Conn>

  predicate Wraps(conns: Conns, id: nat) {
    id in conns && conns[id].inner.Some? ==>
      && conns[id].inner.value in conns
      && conns[conns[id].inner.value].inner.None?
      && conns[conns[id].inner.value].fd == conns[id].fd
  }

  /** Who wraps whom, which connection is the control connection, and who may be registered. */
  predicate Shape(conns: Conns, registered: map<nat, nat>, control: nat) {
    && control in conns && conns[control].fd == 0 && conns[control].inner.None?
    && (forall id :: id in conns && conns[id].inner.Some? ==> conns[id].fd != 0)
    && (forall id :: id in conns ==> Wraps(conns, id))
    && (forall i, j :: i in conns && j in conns && i != j && conns[i].inner.Some? ==> conns[i].inner != conns[j].inner)
    && (forall fd :: fd in registered ==> Entry(conns, registered[fd], fd))
  }

  predicate Entry(conns: Conns, id: nat, fd: nat) {
    id in conns && conns[id].fd == fd && fd != 0 && conns[id].inner.Some?
  }

  predicate OpenEntry(conns: Conns, id: nat) {
    id in conns && !conns[id].closed && conns[id].inner.Some?
    && conns[id].inner.value in conns && !conns[conns[id].inner.value].closed
  }

  /** Every registered connection is open, and so is the one it wraps. */
  predicate AllOpen(conns: Conns, registered: map<nat, nat>) {
    forall fd :: fd in registered ==> OpenEntry(conns, registered[fd])
  }

  /** An open connection with a descriptor is the one registered for it, or wrapped by that one. */
  predicate Held(conns: Conns, registered: map<nat, nat>, id: nat)
    requires id in conns
  {
    || conns[id].closed || conns[id].fd == 0
    || (conns[id].fd in registered && registered[conns[id].fd] in conns && id in With(conns, registered[conns[id].fd]))
  }

  predicate AllRegistered(conns: Conns, registered: map<nat, nat>) {
    forall id :: id in conns ==> Held(conns, registered, id)
  }

  /** No connection but control connections is open. */
  predicate NoneOpen(conns: Conns) {
    forall id :: id in conns && conns[id].fd != 0 ==> conns[id].closed
  }

  /** A connection and the one it wraps. */
  function With(conns: Conns, id: nat): set<nat>
    requires id in conns
  {
    if conns[id].inner.Some? then {id, conns[id].inner.value} else {id}
  }

  /** The connections registered under the descriptors in `fds`, and those they wrap. */
  function Group(conns: Conns, registered: map<nat, nat>, fds: set<nat>): set<nat> {
    set fd, j | fd in fds && fd in registered && registered[fd] in conns && j in With(conns, registered[fd]) :: j
  }

  /** Only `closed` flags change, and exactly those of `who` are set. */
  predicate Closes(before: Conns, after: Conns, who: set<nat>) {
    && before.Keys == after.Keys
    && forall id :: id in before ==> after[id] == before[id].(closed := before[id].closed || id in who)
  }

  lemma ClosesTwice(a: Conns, b: Conns, c: Conns, s: set<nat>, t: set<nat>)
    requires Closes(a, b, s) && Closes(b, c, t)
    ensures Closes(a, c, s + t)
  {
  }

  /** The CLOSE messages the host is sent when `id` is closed: one from the connection it wraps, if
      that was open, and one of its own; none once the control connection is closed for writing. */
  function Notices(conns: Conns, control: nat, id: nat): seq<nat>
    requires id in conns && control in conns && Wraps(conns, id)
  {
    if conns[control].closed then []
    else if conns[id].inner.Some? && !conns[conns[id].inner.value].closed then [conns[id].fd, conns[id].fd]
    else [conns[id].fd]
  }

  /** An order of descriptors, each once. */
  ghost predicate Lists(order: seq<nat>, fds: set<nat>) {
    && (forall i, j :: 0 <= i < j < |order| ==> order[i] != order[j])
    && (forall fd :: fd in order <==> fd in fds)
  }

  function Twice(order: seq<nat>): seq<nat> {
    if order == [] then [] else Twice(order[..|order| - 1]) + [order[|order| - 1], order[|order| - 1]]
  }

  lemma OneMoreTwice(order: seq<nat>, fds: set<nat>, fd: nat)
    requires Lists(order, fds) && fd !in fds
    ensures Lists(order + [fd], fds + {fd}) && Twice(order + [fd]) == Twice(order) + [fd, fd]
  {
    var more := order + [fd];
    assert more[..|order|] == order;
    assert forall i :: 0 <= i < |order| ==> order[i] in order;
  }

  function OpenIds(conns: Conns): set<nat> {
    set id | id in conns && !conns[id].closed
  }

  lemma ClosesKeepsShape(before: Conns, after: Conns, who: set<nat>, registered: map<nat, nat>, control: nat)
    requires Shape(before, registered, control) && Closes(before, after, who)
    ensures Shape(after, registered, control)
    ensures OpenIds(after) <= OpenIds(before)
  {
    forall id | id in after
      ensures Wraps(after, id)
    {
      assert Wraps(before, id);
    }
    forall fd | fd in registered
      ensures Entry(after, registered[fd], fd)
    {
      assert Entry(before, registered[fd], fd);
    }
  }

  /** A connection and the one it wraps have one descriptor. */
  lemma WithDescriptor(conns: Conns, registered: map<nat, nat>, control: nat, id: nat, j: nat)
    requires Shape(conns, registered, control) && id in conns && j in With(conns, id)
    ensures j in conns && conns[j].fd == conns[id].fd
  {
    assert Wraps(conns, id);
  }

  /** Closing a connection leaves every connection registered for another descriptor open. */
  lemma OthersStayOpen(before: Conns, after: Conns, registered: map<nat, nat>, control: nat, id: nat)
    requires Shape(before, registered, control) && AllOpen(before, registered) && id in before
    requires Closes(before, after, With(before, id))
    ensures AllOpen(after, registered - {before[id].fd})
  {
    forall gd | gd in registered && gd != before[id].fd
      ensures OpenEntry(after, registered[gd])
    {
      assert OpenEntry(before, registered[gd]) && Entry(before, registered[gd], gd);
      forall j | j in With(before, registered[gd])
        ensures j !in With(before, id)
      {
        WithDescriptor(before, registered, control, registered[gd], j);
        if j in With(before, id) {
          WithDescriptor(before, registered, control, id, j);
        }
      }
    }
  }

  /** Closing a connection that was handed out leaves no open connection unregistered. */
  lemma OthersStayHeld(before: Conns, after: Conns, registered: map<nat, nat>, control: nat, id: nat)
    requires Shape(before, registered, control) && AllRegistered(before, registered)
    requires id in before && before[id].inner.Some? && !before[id].closed && Closes(before, after, With(before, id))
    ensures AllRegistered(after, registered - {before[id].fd})
  {
    var fd := before[id].fd;
    assert Held(before, registered, id);
    assert Entry(before, registered[fd], fd) && Wraps(before, registered[fd]);
    assert registered[fd] == id;
    forall j | j in after
      ensures Held(after, registered - {fd}, j)
    {
      assert Held(before, registered, j);
      if !after[j].closed && after[j].fd != 0 {
        WithStays(before, after, With(before, id), registered[before[j].fd]);
      }
    }
  }

  /** Opening keeps every open connection registered exactly when the descriptor is not in use. */
  lemma OpenHeldExactly(c0: Conns, r0: map<nat, nat>, control: nat, fd: nat, base: nat, outer: nat)
    requires Shape(c0, r0, control) && AllOpen(c0, r0) && AllRegistered(c0, r0)
    requires fd != 0 && base !in c0 && outer !in c0 && base != outer
    ensures var c := c0[base := Conn(fd, false, None)][outer := Conn(fd, false, Some(base))];
            AllRegistered(c, r0[fd := outer]) <==> fd !in r0
  {
    var c := c0[base := Conn(fd, false, None)][outer := Conn(fd, false, Some(base))];
    var r := r0[fd := outer];
    if fd in r0 {
      assert Entry(c0, r0[fd], fd) && OpenEntry(c0, r0[fd]);
      assert !Held(c, r, r0[fd]);
    } else {
      forall j | j in c
        ensures Held(c, r, j)
      {
        if j in c0 {
          assert Held(c0, r0, j);
        }
      }
    }
  }

  /** When a control connection is gone no other is open, exactly when all of them were registered. */
  lemma VanishExactly(c0: Conns, c1: Conns, r0: map<nat, nat>, control: nat, id: nat)
    requires Shape(c0, r0, control) && id in c0 && c0[id].fd == 0 && Closes(c0, c1, {id} + Group(c0, r0, r0.Keys))
    ensures NoneOpen(c1) <==> AllRegistered(c0, r0)
  {
    if NoneOpen(c1) {
      forall j | j in c0
        ensures Held(c0, r0, j)
      {
        if !c0[j].closed && c0[j].fd != 0 {
          assert c1[j].closed && j in Group(c0, r0, r0.Keys);
          var gd :| gd in r0 && r0[gd] in c0 && j in With(c0, r0[gd]);
          assert Entry(c0, r0[gd], gd);
          WithDescriptor(c0, r0, control, r0[gd], j);
        }
      }
    }
    if AllRegistered(c0, r0) {
      forall j | j in c1 && c1[j].fd != 0
        ensures c1[j].closed
      {
        assert Held(c0, r0, j);
      }
    }
  }

  /** Wrapping is not touched by closing. */
  lemma WithStays(before: Conns, after: Conns, who: set<nat>, id: nat)
    requires Closes(before, after, who) && id in before
    ensures With(after, id) == With(before, id)
  {
  }

  lemma GroupOneMore(conns: Conns, registered: map<nat, nat>, fds: set<nat>, fd: nat)
    requires fd in registered && registered[fd] in conns
    ensures Group(conns, registered, fds + {fd}) == Group(conns, registered, fds) + With(conns, registered[fd])
  {
    var a, b := Group(conns, registered, fds + {fd}), Group(conns, registered, fds) + With(conns, registered[fd]);
    forall j
      ensures j in a <==> j in b
    {
    }
  }

  lemma GroupNone(conns: Conns, registered: map<nat, nat>)
    ensures Closes(conns, conns, Group(conns, registered, {}))
  {
  }

  /** What a registration says about its connection. */
  lemma Registration(conns: Conns, registered: map<nat, nat>, control: nat, fd: nat)
    requires Shape(conns, registered, control) && AllOpen(conns, registered) && fd in registered
    ensures registered[fd] in conns && conns[registered[fd]].fd == fd && !conns[registered[fd]].closed
    ensures registered[fd] != control && fd != 0 && control in conns && Wraps(conns, registered[fd])
    ensures Notices(conns, control, registered[fd]) == if conns[control].closed then [] else [fd, fd]
  {
    assert Entry(conns, registered[fd], fd) && OpenEntry(conns, registered[fd]);
    assert Wraps(conns, registered[fd]);
  }

  class Socket {
    var conns: Conns
    var registered: map<nat, nat>      // the sync.Map: descriptor to connection
    var control: nat                   // b.c
    var log: seq<nat>                  // descriptors of the CLOSE messages written to the control connection

    /** Between close operations: every registered connection is open, under its own descriptor. */
    predicate Valid()
      reads this
    {
      Shape(conns, registered, control) && AllOpen(conns, registered)
    }

    /** Every open connection but the control connection is registered. */
    predicate Complete()
      reads this
    {
      AllRegistered(conns, registered)
    }

    /** The control connection has been opened. */
    constructor (id: nat)
      ensures Valid() && Complete() && control == id && registered == map[] && log == []
      ensures conns == map[id := Conn(0, false, None)]
    {
      conns := map[id := Conn(0, false, None)];
      registered, control, log := map[], id, [];
    }

    /** open(fd): `base` sends the identity message; for descriptor 0 it becomes the control connection,
        else `outer` wraps it and is registered. No open connection stays unregistered if and only if
        the descriptor was not in use. */
    method Open(fd: nat, base: nat, outer: nat)
      requires Valid() && base !in conns && outer !in conns && base != outer
      modifies `conns, `registered, `control
      ensures Valid()
      ensures fd == 0 ==>
                conns == old(conns)[base := Conn(0, false, None)] && registered == old(registered) && control == base
      ensures fd != 0 ==>
                && conns == old(conns)[base := Conn(fd, false, None)][outer := Conn(fd, false, Some(base))]
                && registered == old(registered)[fd := outer] && control == old(control)
      ensures old(Complete()) ==> (Complete() <==> fd !in old(registered))
    {
      hide Shape, AllOpen, AllRegistered;
      if fd == 0 {
        ControlOpens(conns, registered, control, base);
        conns := conns[base := Conn(0, false, None)];
        control := base;
        return;
      }
      if AllRegistered(conns, registered) {
        OpenHeldExactly(conns, registered, control, fd, base, outer);
      }
      OpenKeeps(conns, registered, control, fd, base, outer);
      conns := conns[base := Conn(fd, false, None)][outer := Conn(fd, false, Some(base))];
      registered := registered[fd := outer];
    }

    static lemma ControlOpens(c0: Conns, r0: map<nat, nat>, control: nat, base: nat)
      requires Shape(c0, r0, control) && AllOpen(c0, r0) && base !in c0
      ensures Shape(c0[base := Conn(0, false, None)], r0, base) && AllOpen(c0[base := Conn(0, false, None)], r0)
      ensures 0 !in r0 && (AllRegistered(c0, r0) ==> AllRegistered(c0[base := Conn(0, false, None)], r0))
    {
      var c := c0[base := Conn(0, false, None)];
      assert 0 in r0 ==> Entry(c0, r0[0], 0);
      forall id | id in c
        ensures Wraps(c, id)
      {
        assert id in c0 ==> Wraps(c0, id);
      }
      forall gd | gd in r0
        ensures Entry(c, r0[gd], gd) && OpenEntry(c, r0[gd])
      {
        assert Entry(c0, r0[gd], gd) && OpenEntry(c0, r0[gd]);
      }
      if AllRegistered(c0, r0) {
        forall j | j in c
          ensures Held(c, r0, j)
        {
          assert j in c0 ==> Held(c0, r0, j);
        }
      }
    }

    static lemma OpenKeeps(c0: Conns, r0: map<nat, nat>, control: nat, fd: nat, base: nat, outer: nat)
      requires Shape(c0, r0, control) && AllOpen(c0, r0) && fd != 0 && base !in c0 && outer !in c0 && base != outer
      ensures var c := c0[base := Conn(fd, false, None)][outer := Conn(fd, false, Some(base))];
              Shape(c, r0[fd := outer], control) && AllOpen(c, r0[fd := outer])
    {
      var c := c0[base := Conn(fd, false, None)][outer := Conn(fd, false, Some(base))];
      var r := r0[fd := outer];
      forall id | id in c
        ensures Wraps(c, id)
      {
        assert id in c0 ==> Wraps(c0, id);
      }
      forall gd | gd in r
        ensures Entry(c, r[gd], gd) && OpenEntry(c, r[gd])
      {
        if gd != fd {
          assert Entry(c0, r0[gd], gd) && OpenEntry(c0, r0[gd]) && Wraps(c0, r0[gd]);
        }
      }
    }

    /** The host's CLOSE message for a descriptor: afterwards it is not registered, its connection and
        the one that wraps are closed, nothing else has changed, and the host has been told twice. */
    method HostCloses(fd: nat)
      requires Valid() && !conns[control].closed
      modifies this
      ensures Valid() && control == old(control) && registered == old(registered) - {fd}
      ensures old(Complete()) ==> Complete()
      ensures fd !in old(registered) ==> conns == old(conns) && log == old(log)
      ensures fd in old(registered) ==>
                && Closes(old(conns), conns, With(old(conns), old(registered[fd])))
                && log == old(log) + [fd, fd]
    {
      if fd in registered {
        Registration(conns, registered, control, fd);
        assert OpenEntry(conns, registered[fd]);
        var _, _ := Close(registered[fd]);
      }
    }

    /** The control connection is closed: every registered connection and everything it wraps is
        closed, nothing stays registered, and no CLOSE message is sent. No connection with a descriptor
        is left open if and only if every open one was registered. */
    method ControlVanishes()
      requires Valid() && !conns[control].closed
      modifies this
      ensures Valid() && registered == map[] && log == old(log)
      ensures Closes(old(conns), conns, {old(control)} + Group(old(conns), old(registered), old(registered).Keys))
      ensures NoneOpen(conns) <==> old(Complete())
    {
      var _, _ := Close(control);
    }

    /** The handler ends and its deferred call closes the connection that was the control connection
        when it started. After an OPEN for descriptor 0 that is not the present one: the registered
        connections close all the same, and the present control connection, which stays open, carries two
        CLOSE messages for each of them and one for descriptor 0. */
    method HandlerExits(first: nat) returns (ghost order: seq<nat>)
      requires Valid() && first in conns && conns[first].fd == 0 && !conns[first].closed
      modifies this
      ensures Valid() && control == old(control) && registered == map[]
      ensures Closes(old(conns), conns, {first} + Group(old(conns), old(registered), old(registered).Keys))
      ensures NoneOpen(conns) <==> old(Complete())
      ensures first != control ==> conns[control].closed == old(conns[control].closed)
      ensures Lists(order, old(registered).Keys)
      ensures log == old(log) + if conns[control].closed then [] else Twice(order) + [0]
    {
      var already, taken := Close(first);
      order := taken;
      ZeroStays(old(conns), old(registered), control, control);
    }

    /** Why a live descriptor must not be opened again: closing the connection it had before takes the
        new registration away while the new connection is still open. */
    method ReopenOrphans(fd: nat, base: nat, outer: nat)
      requires Valid() && fd in registered && base !in conns && outer !in conns && base != outer
      modifies this
      ensures fd !in registered && outer in conns && !conns[outer].closed
    {
      Registration(conns, registered, control, fd);
      var before := registered[fd];
      assert Wraps(conns, before);
      Open(fd, base, outer);
      assert Wraps(conns, before);
      var _, _ := Close(before);
    }

    /** ControlSocketConn.Close, of any connection; `order` is the one in which a cascade takes the
        registered descriptors. */
    method Close(id: nat) returns (already: bool, ghost order: seq<nat>)
      requires Shape(conns, registered, control) && id in conns
      requires conns[id].fd == 0 ==> AllOpen(conns, registered)
      modifies this
      ensures Shape(conns, registered, control) && control == old(control)
      ensures already <==> old(conns[id].closed)
      ensures already ==> conns == old(conns) && registered == old(registered) && log == old(log)
      ensures !already && old(conns[id].fd) != 0 ==>
                && Closes(old(conns), conns, With(old(conns), id))
                && registered == old(registered) - {old(conns[id].fd)}
                && log == old(log) + Notices(old(conns), old(control), id)
      ensures !already && old(conns[id].fd) == 0 ==>
                && Closes(old(conns), conns, {id} + Group(old(conns), old(registered), old(registered).Keys))
                && registered == map[] && Lists(order, old(registered).Keys)
                && log == old(log) + (if id == control || old(conns[control].closed) then [] else Twice(order) + [0])
                && (NoneOpen(conns) <==> old(Complete()))
      // the others stay open and, when a connection that was handed out is closed, registered
      ensures old(AllOpen(conns, registered)) ==> AllOpen(conns, registered)
      ensures old(Complete()) && old(conns[id].fd == 0 || conns[id].inner.Some?) ==> Complete()
      decreases OpenIds(conns), 0
    {
      hide Shape, AllOpen, AllRegistered, NoneOpen, Closes, Group, OpenIds, With, Lists, Twice;
      if conns[id].closed {
        return true, [];
      }
      already := false;
      ghost var c0, r0 := conns, registered;
      conns := conns[id := conns[id].(closed := true)];
      MarkClosed(c0, conns, r0, control, id);
      if conns[id].inner.Some? {
        ghost var c1 := conns;
        CloseWrapped(id);
        BothClosed(c0, c1, conns, id);
      }
      ghost var c2 := conns;
      order := Callback(id);
      if conns[id].fd == 0 {
        GroupStays(c0, c2, r0, id);
        ClosesTwice(c0, c2, conns, {id}, Group(c2, r0, r0.Keys));
        VanishExactly(c0, conns, r0, control, id);
        NothingRegistered(conns);
      } else {
        RestKept(c0, conns, r0, control, id);
      }
    }

    static lemma NothingRegistered(conns: Conns)
      ensures AllOpen(conns, map[]) && (NoneOpen(conns) ==> AllRegistered(conns, map[]))
    {
    }

    static lemma RestKept(c0: Conns, c1: Conns, r0: map<nat, nat>, control: nat, id: nat)
      requires Shape(c0, r0, control) && id in c0 && !c0[id].closed && Closes(c0, c1, With(c0, id))
      ensures AllOpen(c0, r0) ==> AllOpen(c1, r0 - {c0[id].fd})
      ensures AllRegistered(c0, r0) && c0[id].inner.Some? ==> AllRegistered(c1, r0 - {c0[id].fd})
    {
      hide Shape, AllOpen, AllRegistered, Closes, With;
      if AllOpen(c0, r0) {
        OthersStayOpen(c0, c1, r0, control, id);
      }
      if AllRegistered(c0, r0) && c0[id].inner.Some? {
        OthersStayHeld(c0, c1, r0, control, id);
      }
    }

    static lemma MarkClosed(c0: Conns, c1: Conns, registered: map<nat, nat>, control: nat, id: nat)
      requires Shape(c0, registered, control) && id in c0 && !c0[id].closed
      requires c1 == c0[id := c0[id].(closed := true)]
      ensures Closes(c0, c1, {id}) && Shape(c1, registered, control)
      ensures OpenIds(c1) < OpenIds(c0)
      ensures c0[id].inner.None? ==> With(c0, id) == {id}
      ensures Wraps(c0, id) && control in c0 && (id == control ==> c0[id].fd == 0)
      ensures c0[id].inner.Some? ==> c0[id].fd != 0
      ensures c0[id].inner.Some? ==> c0[id].inner.value != id
      ensures c0[id].fd == 0 && AllOpen(c0, registered) ==> AllOpen(c1, registered)
    {
      ClosesKeepsShape(c0, c1, {id}, registered, control);
      assert id in OpenIds(c0) && id !in OpenIds(c1);
      assert Wraps(c0, id);
      if c0[id].fd == 0 && AllOpen(c0, registered) {
        forall fd | fd in registered
          ensures OpenEntry(c1, registered[fd])
        {
          assert OpenEntry(c0, registered[fd]) && Entry(c0, registered[fd], fd) && Wraps(c0, registered[fd]);
        }
      }
    }

    static lemma BothClosed(c0: Conns, c1: Conns, c2: Conns, id: nat)
      requires id in c0 && Closes(c0, c1, {id}) && c1[id].inner.Some? && Closes(c1, c2, {c1[id].inner.value})
      ensures Closes(c0, c2, With(c0, id)) && id in c2 && c2[id].fd == c0[id].fd
      ensures c2[id].closed == (c1[id].closed || c1[id].inner.value == id)
    {
      ClosesTwice(c0, c1, c2, {id}, {c1[id].inner.value});
      assert With(c0, id) == {id} + {c1[id].inner.value};
    }

    static lemma GroupStays(c0: Conns, c1: Conns, registered: map<nat, nat>, id: nat)
      requires Closes(c0, c1, {id})
      ensures Group(c1, registered, registered.Keys) == Group(c0, registered, registered.Keys)
    {
      forall j | j in c0
        ensures With(c1, j) == With(c0, j)
      {
        WithStays(c0, c1, {id}, j);
      }
    }

    /** The wrapped connection's Close inside the wrapper's. */
    method CloseWrapped(id: nat)
      requires Shape(conns, registered, control) && id in conns && conns[id].inner.Some? && conns[id].closed
      modifies this
      ensures Shape(conns, registered, control) && control == old(control)
      ensures Closes(old(conns), conns, {old(conns[id].inner.value)})
      ensures log == old(log) +
                     if old(conns[control].closed || conns[conns[id].inner.value].closed) then [] else [conns[id].fd]
      ensures registered == old(registered) || registered == old(registered) - {conns[id].fd}
      ensures OpenIds(conns) <= old(OpenIds(conns))
      decreases OpenIds(conns), 1
    {
      assert Wraps(conns, id);
      ghost var c0 := conns;
      var inner := conns[id].inner.value;
      var already, _ := Close(inner);
      if !already {
        ClosesKeepsShape(c0, conns, With(c0, inner), registered, control);
      }
    }

    /** ControlSocket.close, called back by the connection. */
    method Callback(id: nat) returns (ghost order: seq<nat>)
      requires Shape(conns, registered, control) && id in conns && conns[id].closed
      requires conns[id].fd == 0 ==> AllOpen(conns, registered)
      modifies this
      ensures Shape(conns, registered, control) && control == old(control) && id in conns
      ensures conns[id] == old(conns[id]) && control in conns && conns[control] == old(conns[control])
      ensures conns[id].fd != 0 ==>
                && conns == old(conns) && registered == old(registered) - {conns[id].fd}
                && log == old(log) + if conns[control].closed then [] else [conns[id].fd]
      ensures conns[id].fd == 0 ==>
                && Closes(old(conns), conns, Group(old(conns), old(registered), old(registered).Keys))
                && registered == map[] && Lists(order, old(registered).Keys)
                && log == old(log) + if conns[control].closed then [] else Twice(order) + [0]
      decreases OpenIds(conns), 2
    {
      hide AllOpen, Group, OpenIds, With, Lists, Twice;
      order := [];
      registered := registered - {conns[id].fd};
      if conns[id].fd == 0 {
        ghost var c0 := conns;
        assert 0 in old(registered) ==> Entry(conns, old(registered)[0], 0);
        assert registered == old(registered);
        order := CloseRegistered();
        ZeroStays(c0, old(registered), control, id);
        ZeroStays(c0, old(registered), control, control);
      }
      if !conns[control].closed {
        log := log + [conns[id].fd];
        Assoc(old(log), Twice(order), [0]);
      }
    }

    /** No connection without a descriptor is in a group. */
    static lemma ZeroStays(conns: Conns, registered: map<nat, nat>, control: nat, id: nat)
      requires Shape(conns, registered, control) && id in conns && conns[id].fd == 0
      ensures id !in Group(conns, registered, registered.Keys)
    {
      if id in Group(conns, registered, registered.Keys) {
        var fd :| fd in registered && registered[fd] in conns && id in With(conns, registered[fd]);
        assert Entry(conns, registered[fd], fd);
        WithDescriptor(conns, registered, control, registered[fd], id);
      }
    }

    /** The Range in ControlSocket.close over the registered connections. */
    method CloseRegistered() returns (ghost order: seq<nat>)
      requires Shape(conns, registered, control) && AllOpen(conns, registered)
      modifies this
      ensures Shape(conns, registered, control) && control == old(control)
      ensures Closes(old(conns), conns, Group(old(conns), old(registered), old(registered).Keys))
      ensures registered == map[] && Lists(order, old(registered).Keys)
      ensures control in old(conns)
      ensures log == old(log) + if old(conns[control].closed) then [] else Twice(order)
      decreases OpenIds(conns), 1
    {
      hide Shape, AllOpen, AllRegistered, NoneOpen, Closes, Group, OpenIds, With, Wraps, Notices, Lists, Twice, Swept;
      var pending := registered.Keys;
      ghost var done: set<nat>, sent: seq<nat> := {}, [];
      ghost var c0, r0 := conns, registered;
      order := [];
      SweptNone(c0, r0, control);
      assert log == log + sent;
      while pending != {}
        invariant Swept(c0, r0, control, conns, registered, done, order, sent)
        invariant control == old(control) && log == old(log) + sent
        invariant done + pending == r0.Keys && done !! pending
        decreases pending
      {
        var fd :| fd in pending;
        ghost var c1, r1 := conns, registered;
        SweptParts(c0, r0, control, conns, registered, done, order, sent, fd);
        var _, _ := Close(registered[fd]);
        SweptMore(c0, r0, control, c1, r1, conns, done, order, sent, fd);
        Assoc(old(log), sent, Notices(c1, control, r1[fd]));
        sent := sent + Notices(c1, control, r1[fd]);
        order, pending, done := order + [fd], pending - {fd}, done + {fd};
      }
      assert done == r0.Keys;
      SweptAll(c0, r0, control, conns, registered, order, sent);
    }

    /** The registered connections for the descriptors in `done` have been closed, in this order, and
        these CLOSE messages have been sent. */
    ghost static predicate Swept(c0: Conns, r0: map<nat, nat>, control: nat, conns: Conns, registered: map<nat, nat>,
                                 done: set<nat>, order: seq<nat>, sent: seq<nat>)
    {
      && Shape(conns, registered, control) && AllOpen(conns, registered)
      && control in c0 && control in conns && conns[control].closed == c0[control].closed && conns.Keys == c0.Keys
      && registered == r0 - done
      && Closes(c0, conns, Group(c0, r0, done)) && OpenIds(conns) <= OpenIds(c0)
      && Lists(order, done) && sent == if c0[control].closed then [] else Twice(order)
    }

    static lemma SweptNone(c0: Conns, r0: map<nat, nat>, control: nat)
      requires Shape(c0, r0, control) && AllOpen(c0, r0)
      ensures Swept(c0, r0, control, c0, r0, {}, [], [])
    {
      GroupNone(c0, r0);
    }

    static lemma SweptParts(c0: Conns, r0: map<nat, nat>, control: nat, conns: Conns, registered: map<nat, nat>,
                            done: set<nat>, order: seq<nat>, sent: seq<nat>, fd: nat)
      requires Swept(c0, r0, control, conns, registered, done, order, sent) && fd in r0 && fd !in done
      ensures Shape(conns, registered, control) && OpenIds(conns) <= OpenIds(c0)
      ensures fd in registered && registered[fd] in conns && control in conns && Wraps(conns, registered[fd])
      ensures conns[registered[fd]].fd == fd != 0 && !conns[registered[fd]].closed
    {
      Registration(conns, registered, control, fd);
    }

    static lemma SweptMore(c0: Conns, r0: map<nat, nat>, control: nat, c1: Conns, r1: map<nat, nat>, c2: Conns,
                           done: set<nat>, order: seq<nat>, sent: seq<nat>, fd: nat)
      requires Swept(c0, r0, control, c1, r1, done, order, sent) && fd in r0 && fd !in done && fd in r1 && r1[fd] in c1
      requires control in c1 && Wraps(c1, r1[fd])
      requires Closes(c1, c2, With(c1, r1[fd])) && Shape(c2, r1 - {fd}, control)
      ensures Swept(c0, r0, control, c2, r1 - {fd}, done + {fd}, order + [fd], sent + Notices(c1, control, r1[fd]))
    {
      hide Shape, AllOpen, Closes, Group, OpenIds, With, Wraps, Notices, Lists, Twice;
      Registration(c1, r1, control, fd);
      OneClosed(c0, c1, c2, r0, r1, control, done, fd);
      OneMoreTwice(order, done, fd);
      assert r1 - {fd} == r0 - (done + {fd});
    }

    static lemma SweptAll(c0: Conns, r0: map<nat, nat>, control: nat, conns: Conns, registered: map<nat, nat>,
                          order: seq<nat>, sent: seq<nat>)
      requires Swept(c0, r0, control, conns, registered, r0.Keys, order, sent)
      ensures Shape(conns, registered, control) && Closes(c0, conns, Group(c0, r0, r0.Keys))
      ensures registered == map[] && Lists(order, r0.Keys)
      ensures control in c0 && sent == if c0[control].closed then [] else Twice(order)
    {
    }

    /** A turn of the Range, on values. */
    static lemma OneClosed(c0: Conns, c1: Conns, c2: Conns, r0: map<nat, nat>, r1: map<nat, nat>, control: nat,
                           done: set<nat>, fd: nat)
      requires Shape(c1, r1, control) && AllOpen(c1, r1) && fd in r1 && fd in r0 && r1[fd] == r0[fd]
      requires c1.Keys == c0.Keys && r1[fd] in c1
      requires Closes(c0, c1, Group(c0, r0, done)) && Closes(c1, c2, With(c1, r1[fd]))
      requires control in c1
      ensures AllOpen(c2, r1 - {fd}) && Closes(c0, c2, Group(c0, r0, done + {fd})) && c2.Keys == c0.Keys
      ensures OpenIds(c2) <= OpenIds(c1) && control in c2 && c2[control].closed == c1[control].closed
    {
      assert Entry(c1, r1[fd], fd);
      OthersStayOpen(c1, c2, r1, control, r1[fd]);
      ClosesKeepsShape(c1, c2, With(c1, r1[fd]), r1, control);
      WithStays(c0, c1, Group(c0, r0, done), r1[fd]);
      GroupOneMore(c0, r0, done, fd);
      ClosesTwice(c0, c1, c2, Group(c0, r0, done), With(c1, r1[fd]));
      if control in With(c1, r1[fd]) {
        WithDescriptor(c1, r1, control, r1[fd], control);
      }
    }
  }
}
