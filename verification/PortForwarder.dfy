/** The forwarding daemon's table of sessions. ForwardPort, Stop and StopAll run under sessionsMutex; an
    accept loop closes its listener in a goroutine of its own; List takes no lock, so what it returns
    is stated for a table nobody is changing. */
module PortForwarder {
  import opened Bytes
  import opened Text

  datatype Session = Session(src: string, dst: string, lis: nat)

  datatype Result = Ok | BadAddress | AlreadyExists | CloseFailed | ListenFailed

  /** parseAddr succeeds. */
  predicate Parses(addr: string) {
    SplitFirst(addr, ':').Some?
  }

  type Table = map<string, Session>

  predicate Owned(sessions: Table, lis: nat) {
    exists key :: key in sessions && sessions[key].lis == lis
  }

  /** Entries are keyed by their own source, no two share a listener, and every open listener belongs
      to an entry. */
  predicate Consistent(sessions: Table, open: set<nat>) {
    && (forall key :: key in sessions ==> sessions[key].src == key)
    && (forall k, l :: k in sessions && l in sessions && k != l ==> sessions[k].lis != sessions[l].lis)
    && (forall lis :: lis in open ==> Owned(sessions, lis))
  }

  /** Every open listener belongs to exactly one entry, and that is keyed by its own source. */
  lemma OneOwner(sessions: Table, open: set<nat>, lis: nat) returns (key: string)
    requires Consistent(sessions, open) && lis in open
    ensures key in sessions && sessions[key].lis == lis && sessions[key].src == key
    ensures forall k :: k in sessions && sessions[k].lis == lis ==> k == key
  {
    assert Owned(sessions, lis);
    key :| key in sessions && sessions[key].lis == lis;
  }

  /** An entry and its listener go together. */
  lemma DropEntry(sessions: Table, open: set<nat>, key: string)
    requires Consistent(sessions, open) && key in sessions
    ensures Consistent(sessions - {key}, open - {sessions[key].lis})
  {
    var rest := sessions - {key};
    forall lis | lis in open && lis != sessions[key].lis
      ensures Owned(rest, lis)
    {
      assert Owned(sessions, lis);
      var k :| k in sessions && sessions[k].lis == lis;
      assert k in rest && rest[k].lis == lis;
    }
  }

  lemma AddEntry(sessions: Table, open: set<nat>, s: Session)
    requires Consistent(sessions, open) && s.src !in sessions
    requires forall key :: key in sessions ==> sessions[key].lis != s.lis
    ensures Consistent(sessions[s.src := s], open + {s.lis})
  {
    var more := sessions[s.src := s];
    assert s.src in more && more[s.src].lis == s.lis;
    forall lis | lis in open
      ensures Owned(more, lis)
    {
      assert Owned(sessions, lis);
      var k :| k in sessions && sessions[k].lis == lis;
      assert k in more && more[k].lis == lis;
    }
  }

  class Forwarder {
    var sessions: map<string, Session>
    var open: set<nat>                   // listeners the daemon has open

    predicate Valid()
      reads this
    {
      Consistent(sessions, open)
    }

    constructor ()
      ensures Valid() && sessions == map[] && open == {}
    {
      sessions, open := map[], {};
    }

    /** ForwardPort. `listens` tells whether net.Listen succeeds, `lis` is the listener it yields. */
    method ForwardPort(src: string, dst: string, rebind: bool, listens: bool, lis: nat) returns (r: Result)
      requires Valid() && (forall key :: key in sessions ==> sessions[key].lis != lis)
      modifies this
      ensures Valid()
      ensures r == (if ':' !in src || ':' !in dst then BadAddress
                    else if src in old(sessions) && !rebind then AlreadyExists
                    else if src in old(sessions) && old(sessions[src].lis !in open) then CloseFailed
                    else if !listens then ListenFailed
                    else Ok)
      ensures r == BadAddress || r == AlreadyExists ==> sessions == old(sessions) && open == old(open)
      ensures r == CloseFailed || r == ListenFailed ==>
                && sessions == old(sessions) - {src}
                && open == old(open) - (if src in old(sessions) then {old(sessions)[src].lis} else {})
      ensures r == Ok ==>
                && sessions == old(sessions)[src := Session(src, dst, lis)]
                && open == old(open) - (if src in old(sessions) then {old(sessions)[src].lis} else {}) + {lis}
    {
      if !Parses(src) || !Parses(dst) {
        return BadAddress;
      }
      if src in sessions {
        if !rebind {
          return AlreadyExists;
        }
        var s := sessions[src];
        DropEntry(sessions, open, src);
        sessions := sessions - {src};
        if s.lis !in open {
          assert open - {s.lis} == open;
          return CloseFailed;
        }
        open := open - {s.lis};
      }
      if !listens {
        return ListenFailed;
      }
      AddEntry(sessions, open, Session(src, dst, lis));
      sessions := sessions[src := Session(src, dst, lis)];
      open := open + {lis};
      return Ok;
    }

    /** The accept loop of a session ends with an error: its listener is closed, the entry stays. */
    method AcceptFails(lis: nat)
      requires Valid()
      modifies `open
      ensures Valid() && open == old(open) - {lis}
    {
      open := open - {lis};
    }

    method Stop(src: string) returns (r: Result)
      requires Valid()
      modifies this
      ensures Valid() && sessions == old(sessions) - {src}
      ensures src !in old(sessions) ==> r == Ok && open == old(open)
      ensures src in old(sessions) ==>
                && r == (if old(sessions[src].lis in open) then Ok else CloseFailed)
                && open == old(open) - {old(sessions)[src].lis}
    {
      if src !in sessions {
        return Ok;
      }
      var s := sessions[src];
      DropEntry(sessions, open, src);
      sessions := sessions - {src};
      r := if s.lis in open then Ok else CloseFailed;
      open := open - {s.lis};
    }

    /** StopAll leaves no session and no open listener. */
    method StopAll()
      requires Valid()
      modifies this
      ensures Valid() && sessions == map[] && open == {}
    {
      var rest := sessions.Keys;
      ghost var left := sessions;
      while rest != {}
        invariant sessions == old(sessions) && left.Keys == rest <= sessions.Keys
        invariant forall k :: k in rest ==> left[k] == sessions[k]
        invariant Consistent(left, open)
        decreases rest
      {
        var key :| key in rest;
        DropEntry(left, open, key);
        open := open - {sessions[key].lis};
        rest, left := rest - {key}, left - {key};
      }
      assert forall lis :: lis in open ==> Owned(left, lis);
      sessions := map[];
    }

    /** List: the src/dst pairs of the table, each entry once. */
    method List() returns (pairs: seq<(string, string)>)
      requires Valid()
      ensures |pairs| == |sessions|
      ensures forall key :: key in sessions ==> (key, sessions[key].dst) in pairs
      ensures forall p :: p in pairs ==> p.0 in sessions && sessions[p.0].dst == p.1
      ensures forall i, j :: 0 <= i < j < |pairs| ==> pairs[i].0 != pairs[j].0
    {
      pairs := [];
      var rest := sessions.Keys;
      while rest != {}
        invariant rest <= sessions.Keys && |pairs| + |rest| == |sessions|
        invariant forall key :: key in sessions && key !in rest ==> (key, sessions[key].dst) in pairs
        invariant forall p :: p in pairs ==> p.0 in sessions && p.0 !in rest && sessions[p.0].dst == p.1
        invariant forall i, j :: 0 <= i < j < |pairs| ==> pairs[i].0 != pairs[j].0
        decreases rest
      {
        var key :| key in rest;
        var s := sessions[key];
        ghost var before := pairs;
        pairs := pairs + [(s.src, s.dst)];
        assert forall i :: 0 <= i < |before| ==> before[i] in before;
        rest := rest - {key};
      }
    }
  }
}
