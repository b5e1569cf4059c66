/** The capped history buffers (crates/server/src/history.rs). */
module History {
  import opened Wrappers
  import opened Control
  import World

  type ConnRecord = World.ConnRecord

  const MAX_TUNNELS: nat := 500
  const MAX_CONNECTIONS: nat := 1000

  // ---- What the buffers stand for: an unbounded log of which they keep the end ----

  /** The last `cap` entries of a log, or all of it. */
  function Kept<T>(log: seq<T>, cap: nat): seq<T> {
    if |log| <= cap then log else log[|log| - cap..]
  }

  /** One record: evict the oldest at capacity, then append. */
  function Pushed<T>(queue: seq<T>, cap: nat, x: T): seq<T> {
    (if |queue| == cap && queue != [] then queue[1..] else queue) + [x]
  }

  /** Recording refines appending to the log. */
  lemma PushKeeps<T>(log: seq<T>, cap: nat, x: T)
    requires cap > 0
    ensures Pushed(Kept(log, cap), cap, x) == Kept(log + [x], cap)
  {
  }

  function Reversed<T>(s: seq<T>): (r: seq<T>)
    ensures |r| == |s|
  {
    if s == [] then [] else Reversed(s[1..]) + [s[0]]
  }

  lemma {:induction false} ReversedAt<T>(s: seq<T>, k: nat)
    requires k < |s|
    ensures Reversed(s)[k] == s[|s| - 1 - k]
    decreases |s|
  {
    if k < |s| - 1 {
      ReversedAt(s[1..], k);
    }
  }

  function Take<T>(s: seq<T>, n: nat): seq<T> {
    if |s| <= n then s else s[..n]
  }

  function Skip<T>(s: seq<T>, n: nat): seq<T> {
    if |s| <= n then [] else s[n..]
  }

  /** `iter().rev().skip(offset).take(limit)`. */
  function Page<T>(queue: seq<T>, limit: nat, offset: nat): seq<T> {
    Take(Skip(Reversed(queue), offset), limit)
  }

  /** A page is newest first, as long as the retained log allows: its k-th entry is the
      (offset + k)-th from the end of the log. */
  lemma PageIs<T>(log: seq<T>, cap: nat, limit: nat, offset: nat)
    ensures var page := Page(Kept(log, cap), limit, offset);
            var kept := if |log| <= cap then |log| else cap;
            && |page| == (if offset >= kept then 0 else if limit <= kept - offset then limit else kept - offset)
            && forall k | 0 <= k < |page| :: page[k] == log[|log| - 1 - offset - k]
  {
    var page := Page(Kept(log, cap), limit, offset);
    forall k | 0 <= k < |page| ensures page[k] == log[|log| - 1 - offset - k] {
      ReversedAt(Kept(log, cap), offset + k);
    }
  }

  /** All pages of one size, in order, as a client would request them. */
  function Pages<T>(queue: seq<T>, limit: nat, offset: nat): seq<T>
    requires limit > 0
    decreases if offset < |queue| then |queue| - offset else 0
  {
    if offset >= |queue| then [] else Page(queue, limit, offset) + Pages(queue, limit, offset + limit)
  }

  /** Consecutive pages neither skip nor repeat an entry. */
  lemma {:induction false} PagesCover<T>(queue: seq<T>, limit: nat, offset: nat)
    requires limit > 0
    ensures Pages(queue, limit, offset) == Skip(Reversed(queue), offset)
    decreases if offset < |queue| then |queue| - offset else 0
  {
    if offset < |queue| {
      PagesCover(queue, limit, offset + limit);
      var rest := Skip(Reversed(queue), offset);
      assert rest == Take(rest, limit) + Skip(rest, limit);
      assert Skip(rest, limit) == Skip(Reversed(queue), offset + limit);
    }
  }

  predicate Wanted(r: ConnRecord, tid: Option<Tid>) {
    tid.None? || r.tid == tid.value
  }

  function OfTunnel(s: seq<ConnRecord>, tid: Option<Tid>): seq<ConnRecord> {
    if s == [] then []
    else (if Wanted(s[0], tid) then [s[0]] else []) + OfTunnel(s[1..], tid)
  }

  lemma {:induction false} OfTunnelConcat(a: seq<ConnRecord>, b: seq<ConnRecord>, tid: Option<Tid>)
    ensures OfTunnel(a + b, tid) == OfTunnel(a, tid) + OfTunnel(b, tid)
    decreases |a|
  {
    if a == [] {
      assert a + b == b;
    } else {
      OfTunnelConcat(a[1..], b, tid);
      assert (a + b)[0] == a[0] && (a + b)[1..] == a[1..] + b;
      var rest, more := OfTunnel(a[1..], tid), OfTunnel(b, tid);
      assert [a[0]] + (rest + more) == [a[0]] + rest + more;
    }
  }

  /** Filtering and reversing commute: the answer is the filtered log, newest first. */
  lemma {:induction false} FilterReversed(s: seq<ConnRecord>, tid: Option<Tid>)
    ensures OfTunnel(Reversed(s), tid) == Reversed(OfTunnel(s, tid))
    decreases |s|
  {
    if s != [] {
      FilterReversed(s[1..], tid);
      OfTunnelConcat(Reversed(s[1..]), [s[0]], tid);
      assert [s[0]][1..] == [];
      if Wanted(s[0], tid) {
        assert OfTunnel(s, tid)[1..] == OfTunnel(s[1..], tid);
      } else {
        assert OfTunnel(s, tid) == OfTunnel(s[1..], tid);
      }
    }
  }

  /** `iter().rev().filter(..).take(limit)`. */
  function Connections(queue: seq<ConnRecord>, tid: Option<Tid>, limit: nat): seq<ConnRecord> {
    Take(OfTunnel(Reversed(queue), tid), limit)
  }

  /** Without eviction the newest records of one tunnel come first, up to the limit. */
  lemma ConnectionsOfTunnel(queue: seq<ConnRecord>, tid: Option<Tid>, limit: nat)
    ensures Connections(queue, tid, limit) == Page(OfTunnel(queue, tid), limit, 0)
  {
    FilterReversed(queue, tid);
    assert Skip(Reversed(OfTunnel(queue, tid)), 0) == Reversed(OfTunnel(queue, tid));
  }

  /** The two queues, and (ghost) everything that was ever recorded. */
  class History {
    var tunnels: seq<TunnelRecord>
    var connections: seq<ConnRecord>
    ghost var tunnelLog: seq<TunnelRecord>
    ghost var connectionLog: seq<ConnRecord>

    ghost predicate Valid()
      reads this
    {
      && tunnels == Kept(tunnelLog, MAX_TUNNELS)
      && connections == Kept(connectionLog, MAX_CONNECTIONS)
    }

    constructor ()
      ensures Valid() && tunnelLog == [] && connectionLog == []
    {
      tunnels, connections := [], [];
      tunnelLog, connectionLog := [], [];
    }

    method RecordTunnel(entry: TunnelRecord)
      requires Valid()
      modifies this
      ensures Valid()
      ensures tunnelLog == old(tunnelLog) + [entry] && connectionLog == old(connectionLog)
      ensures tunnels == Pushed(old(tunnels), MAX_TUNNELS, entry)
    {
      PushKeeps(tunnelLog, MAX_TUNNELS, entry);
      if |tunnels| == MAX_TUNNELS {
        tunnels := tunnels[1..];
      }
      tunnels := tunnels + [entry];
      tunnelLog := tunnelLog + [entry];
    }

    method RecordConnection(entry: ConnRecord)
      requires Valid()
      modifies this
      ensures Valid()
      ensures connectionLog == old(connectionLog) + [entry] && tunnelLog == old(tunnelLog)
      ensures connections == Pushed(old(connections), MAX_CONNECTIONS, entry)
    {
      PushKeeps(connectionLog, MAX_CONNECTIONS, entry);
      if |connections| == MAX_CONNECTIONS {
        connections := connections[1..];
      }
      connections := connections + [entry];
      connectionLog := connectionLog + [entry];
    }

    /** The most recent closed tunnels, a page at a time. */
    method Tunnels(limit: nat, offset: nat) returns (page: seq<TunnelRecord>)
      requires Valid()
      ensures page == Page(Kept(tunnelLog, MAX_TUNNELS), limit, offset)
    {
      page := Take(Skip(Reversed(tunnels), offset), limit);
    }

    method ConnectionsFor(tid: Option<Tid>, limit: nat) returns (answer: seq<ConnRecord>)
      requires Valid()
      ensures answer == Page(OfTunnel(Kept(connectionLog, MAX_CONNECTIONS), tid), limit, 0)
    {
      ConnectionsOfTunnel(connections, tid, limit);
      answer := Take(OfTunnel(Reversed(connections), tid), limit);
    }
  }
}
