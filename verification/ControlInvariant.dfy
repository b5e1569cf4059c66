/** The invariant of the control plane, and what it says about every run from the start. */
module ControlInvariant {
  import opened Wrappers
  import opened Ports
  import opened Nodes
  import opened DeviceTable
  import opened DeviceListing
  import opened Control
  import opened ControlShape
  import opened ControlCounts
  import opened ControlLog
  import opened ControlOrders
  import opened ControlDevices

  ghost predicate Inv(s: State) {
    && Shape(s)
    && PoolExact(s)
    && CountsExact(s)
    && LogExact(s)
    && OrdersExact(s)
    && DevicesExact(s)
  }

  lemma InvInit(cfg: Config)
    ensures Inv(Init(cfg))
  {
  }

  lemma InvStep(s: State, a: Action)
    requires Inv(s) && Enabled(s, a)
    ensures Inv(Apply(s, a))
  {
    ShapeStep(s, a);
    PoolStep(s, a);
    CountsStep(s, a);
    LogStep(s, a);
    OrdersStep(s, a);
    DevicesStep(s, a);
  }

  lemma {:induction false} InvRun(s: State, run: seq<Action>)
    requires Inv(s) && Valid(s, run)
    ensures Inv(Exec(s, run))
    decreases |run|
  {
    if run != [] {
      InvStep(s, run[0]);
      InvRun(Apply(s, run[0]), run[1..]);
    }
  }

  /** The state a run from the empty server ends in. */
  ghost predicate Reached(cfg: Config, run: seq<Action>, s: State) {
    Valid(Init(cfg), run) && s == Exec(Init(cfg), run)
  }

  lemma ReachedInv(cfg: Config, run: seq<Action>, s: State)
    requires Reached(cfg, run, s)
    ensures Inv(s)
  {
    InvInit(cfg);
    InvRun(Init(cfg), run);
  }

  /** A session that has picked a node, or is served through one, still has it at hand. */
  lemma NodeAtHand(cfg: Config, run: seq<Action>, s: State, t: Tid)
    requires Reached(cfg, run, s) && t in s.sessions
    requires s.sessions[t].pc == Picked || ViaPc(s.sessions[t].pc)
    ensures s.sessions[t].node.Some? && s.sessions[t].node.value.nid in s.chans
  {
    ReachedInv(cfg, run, s);
    assert SessionOk(s, t, s.sessions[t]);
  }

  /** A node id that was never drawn is not in the registry. */
  lemma FreshNode(cfg: Config, run: seq<Action>, s: State, n: Nid)
    requires Reached(cfg, run, s) && n !in s.chans
    ensures n !in s.nodes
  {
    ReachedInv(cfg, run, s);
  }

  /** A reached state and one more step. */
  lemma ReachedStep(cfg: Config, run: seq<Action>, s: State, a: Action)
    requires Reached(cfg, run, s) && Enabled(s, a)
    ensures Reached(cfg, run + [a], Apply(s, a))
  {
    assert [a][1..] == [];
    assert Valid(Apply(s, a), []);
    assert Valid(s, [a]);
    Concat(Init(cfg), run, [a]);
  }

  /** A reached state and any further run. */
  lemma ReachedRun(cfg: Config, past: seq<Action>, b: State, run: seq<Action>)
    requires Reached(cfg, past, b) && Valid(b, run)
    ensures Reached(cfg, past + run, Exec(b, run))
  {
    Concat(Init(cfg), past, run);
  }

  /** The part of the invariant that talks about one tunnel's entry and events. */
  lemma ReachedLog(cfg: Config, run: seq<Action>, s: State, t: Tid)
    requires Reached(cfg, run, s)
    ensures Shape(s) && EntryExact(s, t) && Of(s.log, t) == TraceAt(s, t)
  {
    ReachedInv(cfg, run, s);
  }

  lemma {:induction false} SplitRun(s: State, first: seq<Action>, second: seq<Action>)
    requires Valid(s, first + second)
    ensures Valid(s, first) && Valid(Exec(s, first), second)
    decreases |first|
  {
    if first == [] {
      assert first + second == second;
    } else {
      assert (first + second)[1..] == first[1..] + second;
      SplitRun(Apply(s, first[0]), first[1..], second);
    }
  }

  /** The last step of a run was possible, and led where the run leads. */
  lemma Unstep(cfg: Config, run: seq<Action>, a: Action)
    requires Valid(Init(cfg), run + [a])
    ensures Valid(Init(cfg), run) && Enabled(Exec(Init(cfg), run), a)
    ensures Exec(Init(cfg), run + [a]) == Apply(Exec(Init(cfg), run), a)
  {
    SplitRun(Init(cfg), run, [a]);
    Concat(Init(cfg), run, [a]);
    assert [a][1..] == [];
  }

  /** A node session that has ended, or is about to, is not in the registry. */
  lemma {:induction false} LeftRegistry(cfg: Config, run: seq<Action>, s: State, n: Nid)
    requires Reached(cfg, run, s) && n in s.chans && (s.chans[n].pc.Gone? || s.chans[n].pc.Ended?)
    ensures n !in s.nodes
    decreases |run|
  {
    var before, a := run[..|run| - 1], run[|run| - 1];
    assert run == before + [a];
    Unstep(cfg, before, a);
    var b := Exec(Init(cfg), before);
    if n in b.chans && (b.chans[n].pc.Gone? || b.chans[n].pc.Ended?) {
      LeftRegistry(cfg, before, b, n);
    }
    LeavesRegistry(b, a, n);
  }

  lemma LeavesRegistry(s: State, a: Action, n: Nid)
    requires Enabled(s, a) && n in ChansAfter(s, a) && (ChansAfter(s, a)[n].pc.Gone? || ChansAfter(s, a)[n].pc.Ended?)
    requires n in s.chans && (s.chans[n].pc.Gone? || s.chans[n].pc.Ended?) ==> n !in s.nodes
    ensures n !in NodesAfter(s, a)
  {
  }

  lemma {:induction false} ConfigKept(s: State, run: seq<Action>)
    requires Valid(s, run)
    ensures Exec(s, run).cfg == s.cfg
    decreases |run|
  {
    if run != [] {
      ConfigKept(Apply(s, run[0]), run[1..]);
    }
  }

  // ---- Statements about every run ----

  /**
   Port ownership. The configured range is the disjoint union of the free ports and the
   held ones, every held port has one holder, and the tunnels of the table sit on pairwise
   distinct ports of the range.
   */
  lemma PortOwnership(cfg: Config, run: seq<Action>, s: State)
    requires Reached(cfg, run, s)
    ensures All(cfg.range) == s.available + HeldPorts(s) && s.available !! HeldPorts(s)
    ensures forall t, u | HoldsAt(s, t) && HoldsAt(s, u) && t != u :: s.sessions[t].port != s.sessions[u].port
    ensures forall t, u | t in s.active && u in s.active && t != u :: s.active[t].remotePort != s.active[u].remotePort
    ensures forall t | t in s.active :: InRange(cfg.range, s.active[t].remotePort)
  {
    ReachedInv(cfg, run, s);
    ConfigKept(Init(cfg), run);
    forall t | t in s.active ensures HoldsAt(s, t) && s.active[t].remotePort == s.sessions[t].port {
      assert ListedAt(s, t);
    }
    forall p: Port ensures p in All(cfg.range) <==> p in s.available + HeldPorts(s) {
      assert p in All(cfg.range) <==> InRange(cfg.range, p);
    }
  }

  /** The sessions that hold a port. */
  ghost function Holders(s: State): set<Tid> {
    set t | t in s.sessions && HoldsAt(s, t)
  }

  ghost function PortsOf(s: State, some: set<Tid>): set<Port>
    requires some <= s.sessions.Keys
  {
    set t | t in some :: s.sessions[t].port
  }

  /** Distinct ports: as many as sessions. */
  lemma {:induction false} AsManyPorts(s: State, some: set<Tid>)
    requires some <= Holders(s) && PoolExact(s)
    ensures some <= s.sessions.Keys && |PortsOf(s, some)| == |some|
    decreases some
  {
    if some != {} {
      var t :| t in some;
      var rest := some - {t};
      AsManyPorts(s, rest);
      assert PortsOf(s, some) == PortsOf(s, rest) + {s.sessions[t].port};
      assert HoldsAt(s, t) && forall u | u in rest :: HoldsAt(s, u);
    }
  }

  /** Ports are conserved: the free ones and the sessions that hold one add up to the range. */
  lemma PortsConserved(cfg: Config, run: seq<Action>, s: State)
    requires Reached(cfg, run, s)
    ensures All(cfg.range) - s.available == HeldPorts(s)
    ensures |s.available| + |Holders(s)| == |All(cfg.range)|
  {
    PortOwnership(cfg, run, s);
    ReachedInv(cfg, run, s);
    AsManyPorts(s, Holders(s));
    assert PortsOf(s, Holders(s)) == HeldPorts(s);
  }

  /**
   Order streams. In every prefix of what was written to a node, the opened and not yet
   closed tunnels sit on distinct ports, and each close has exactly one open, before it.
   */
  lemma OrderStream(cfg: Config, run: seq<Action>, s: State, n: Nid, i: nat)
    requires Reached(cfg, run, s) && n in s.chans && i <= |s.chans[n].frames|
    ensures var open := OpenMap(s.chans[n].frames[..i]);
            forall t, u | t in open && u in open && t != u :: open[t] != open[u]
    ensures var frames := s.chans[n].frames;
            forall k | 0 <= k < i && frames[k].Close? ::
              && (exists j | 0 <= j < k :: frames[j].Open? && frames[j].tid == frames[k].closed)
              && (forall j | 0 <= j < |frames| && j != k :: frames[j] != frames[k])
    ensures var frames := s.chans[n].frames;
            forall j, k | 0 <= j < k < i && frames[j].Open? && frames[k].Open? :: frames[j].tid != frames[k].tid
  {
    ReachedInv(cfg, run, s);
    var frames := s.chans[n].frames;
    assert StreamExact(s, n);
    SafePrefix(frames, i);
    var open := OpenMap(frames[..i]);
    forall t, u | t in open && u in open && t != u ensures open[t] != open[u] {
      SafeDistinct(frames[..i], t, u);
    }
    forall k | 0 <= k < i && frames[k].Close?
      ensures exists j | 0 <= j < k :: frames[j].Open? && frames[j].tid == frames[k].closed
      ensures forall j | 0 <= j < |frames| && j != k :: frames[j] != frames[k]
    {
      ClosesMatch(frames, k, frames[k].closed);
    }
    forall j, k | 0 <= j < k < i && frames[j].Open? && frames[k].Open?
      ensures frames[j].tid != frames[k].tid
    {
      OpensOnce(frames, j, k);
    }
  }

  /**
   Counters. A registered node's counter is the number of sessions past their increment
   and before their decrement on it, so the saturating decrement never saturates.
   */
  lemma CounterExact(cfg: Config, run: seq<Action>, s: State, n: Nid)
    requires Reached(cfg, run, s) && n in s.nodes
    ensures s.nodes[n].tunnelCount == |CountedOn(s, n)|
    ensures forall t | Enabled(s, Uncount(t)) && s.sessions[t].node.value.nid == n ::
              Decremented(s.nodes, n)[n].tunnelCount == s.nodes[n].tunnelCount - 1
  {
    ReachedInv(cfg, run, s);
    forall t | Enabled(s, Uncount(t)) && s.sessions[t].node.value.nid == n
      ensures s.nodes[n].tunnelCount > 0
    {
      NeverSaturates(s, t);
    }
  }

  /**
   Load balance. From any moment of any run at which all counters are zero, while no tunnel
   leaves its node and no node joins: if never more than `k` sessions are between `pick` and
   `increment_tunnels` at once, the counters of nodes sharing a name stay within `k` of each
   other, what is still on its way included. Nodes may leave at any moment.
   */
  lemma LoadBalance(cfg: Config, past: seq<Action>, s: State, run: seq<Action>, k: nat, n: Nid, m: Nid)
    requires Reached(cfg, past, s) && Valid(s, run) && Crowded(s, run, k)
    requires forall i | i in s.nodes :: s.nodes[i].tunnelCount == 0
    requires SameGroup(Exec(s, run), n, m)
    ensures var now := Exec(s, run);
            now.nodes[n].tunnelCount + |InFlightOn(now, n)| <= now.nodes[m].tunnelCount + k
  {
    ReachedInv(cfg, past, s);
    BalancedFromZero(s, run, k);
  }

  /** An opening event and a history record of one tunnel agree on everything both carry. */
  predicate TellsTheSame(t: Tid, event: Event, record: TunnelRecord) {
    && event.TunnelOpened?
    && record.tid == event.tid == t
    && record.protocol == event.protocol
    && record.localPort == event.localPort
    && record.remotePort == event.remotePort
    && record.startedAt == event.startedAt
    && event.node == (if record.node.Some? then record.node.value else "")
  }

  /**
   Lifecycle. The log says nothing about a tunnel, or that it opened, or that it opened and
   then closed. Once it says closed, the tunnel is out of the table and exactly one history
   record tells the same ports, protocol, node and start; without an opening there is no record.
   */
  lemma Lifecycle(cfg: Config, run: seq<Action>, s: State, t: Tid)
    requires Reached(cfg, run, s)
    ensures var trace := Of(s.log, t);
            || trace == []
            || (|trace| == 1 && trace[0].TunnelOpened?)
            || (|trace| == 2 && trace[0].TunnelOpened? && trace[1] == TunnelClosed(t))
    ensures Of(s.log, t) == [] ==> RecordsOf(s.archive, t) == []
    ensures |Of(s.log, t)| == 2 ==> t !in s.active && |RecordsOf(s.archive, t)| == 1
    ensures RecordsOf(s.archive, t) != [] ==>
              Of(s.log, t) != [] && TellsTheSame(t, Of(s.log, t)[0], RecordsOf(s.archive, t)[0])
    ensures t in s.sessions && (s.sessions[t].pc.Rejected? || s.sessions[t].pc.EndedUnlisted?) ==>
              Of(s.log, t) == [] && RecordsOf(s.archive, t) == []
  {
    ReachedInv(cfg, run, s);
    assert Of(s.log, t) == TraceAt(s, t) && RecordExact(s, t);
    assert t in s.active <==> ListedAt(s, t);
  }

  /**
   Device counts. In one listing the per-device counts add up to the number of tunnels in
   the snapshot that reported a host, even if the device table is read any number of steps
   after the tunnel table.
   */
  lemma DeviceCounts(cfg: Config, run: seq<Action>, s: State, later: seq<Action>)
    requires Reached(cfg, run, s) && Valid(s, later)
    ensures Distinct(Exec(s, later).devices)
    ensures Total(s.active, Exec(s, later).devices) == |Hosted(s.active)|
  {
    ReachedInv(cfg, run, s);
    InvRun(s, later);
    ActiveHostsKnown(s);
    DevicesGrowRun(s, later);
    TotalConserved(s.active, Exec(s, later).devices);
  }

  /** A session on the direct path, fallback included, is never reachable through the table's routes. */
  lemma DirectUnrouted(cfg: Config, run: seq<Action>, s: State, t: Tid, u: Tid)
    requires Reached(cfg, run, s) && t in s.active && s.active[t].route.Some? && s.active[t].route.value.cli == u
    ensures u == t && t in s.sessions && s.sessions[t].via && !NotViaPc(s.sessions[t].pc)
    ensures s.sessions[t].node.Some? && s.active[t].node == Some(s.sessions[t].node.value.name)
  {
    ReachedInv(cfg, run, s);
    assert SessionOk(s, t, s.sessions[t]) by {
      assert ListedAt(s, t);
    }
  }
}
