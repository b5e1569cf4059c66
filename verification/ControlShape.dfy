/** What every control-plane step keeps about sessions, tunnel entries and ports. */
module ControlShape {
  import opened Wrappers
  import opened Ports
  import opened Nodes
  import opened Control

  predicate ViaPc(pc: Pc) {
    pc.OpenSent? || pc.InsertedVia? || pc.CountedVia? || pc.AnnouncedVia? || pc.ServingVia?
    || pc.LeavingVia? || pc.CloseSent?
  }

  /** The phases before a serving path has been entered for good, or on the direct path. */
  predicate NotViaPc(pc: Pc) {
    pc.Start? || pc.Authorized? || pc.Known? || pc.Rejected? || pc.Holding?
    || pc.Picked? || pc.DirectStart? || pc.Bound? || pc.AckedDirect? || pc.InsertedDirect?
    || pc.ServingDirect? || pc.Failed? || pc.Unlisted? || pc.EndedUnlisted?
  }

  /** Between acquiring a port and releasing it. */
  predicate Holds(pc: Pc) {
    !(pc.Start? || pc.Authorized? || pc.Known? || pc.Rejected? || pc.EndedClosed?
    || pc.EndedUnlisted?)
  }

  /** Between entering the tunnel table and leaving it. */
  predicate Listed(pc: Pc) {
    pc.InsertedVia? || pc.CountedVia? || pc.AnnouncedVia? || pc.ServingVia? || pc.LeavingVia?
    || pc.CloseSent? || pc.InsertedDirect? || pc.ServingDirect? || pc.Returned?
  }

  ghost predicate HoldsAt(s: State, t: Tid) {
    t in s.sessions && Holds(s.sessions[t].pc)
  }

  ghost predicate ListedAt(s: State, t: Tid) {
    t in s.sessions && Listed(s.sessions[t].pc)
  }

  ghost function HeldPorts(s: State): set<Port> {
    set t | t in s.sessions && HoldsAt(s, t) :: s.sessions[t].port
  }

  ghost predicate NodeKnown(s: State, i: NodeRef) {
    && i.nid in s.chans
    && s.chans[i.nid].name == i.name
    && s.chans[i.nid].host == i.host
    && s.chans[i.nid].dataPort == i.dataPort
  }

  /** One session is internally consistent. */
  ghost predicate SessionOk(s: State, t: Tid, c: Session) {
    && (ViaPc(c.pc) ==> c.via)
    && (NotViaPc(c.pc) ==> !c.via)
    && (c.via || c.pc == Picked ==> c.node.Some?)
    && (c.node.Some? ==> NodeKnown(s, c.node.value))
    && (c.pc == Removed ==> c.taken == Some(EntryOf(t, c)))
  }

  ghost predicate NodesKnown(s: State) {
    forall n | n in s.nodes ::
      && n in s.chans
      && NodeKnown(s, NodeRef(n, s.nodes[n].name, s.nodes[n].host, s.nodes[n].dataPort))
  }

  /** The tunnel table is exactly the listed sessions, each with the entry it inserted. */
  ghost predicate TableExact(s: State) {
    && (forall t :: t in s.active <==> ListedAt(s, t))
    && (forall t | t in s.active :: s.active[t] == EntryOf(t, s.sessions[t]))
  }

  ghost predicate Shape(s: State) {
    && (forall t | t in s.sessions :: SessionOk(s, t, s.sessions[t]))
    && NodesKnown(s)
    && TableExact(s)
  }

  /** `release` never looks at who held the port; the sessions alone keep the pool exact. */
  ghost predicate PoolExact(s: State) {
    && (forall p :: p in s.available ==> InRange(s.cfg.range, p))
    && (forall t | HoldsAt(s, t) :: InRange(s.cfg.range, s.sessions[t].port) && s.sessions[t].port !in s.available)
    && (forall t, u | HoldsAt(s, t) && HoldsAt(s, u) && t != u :: s.sessions[t].port != s.sessions[u].port)
    && (forall p: Port | InRange(s.cfg.range, p) :: p in s.available || p in HeldPorts(s))
  }

  // ---- Frames: what one step leaves alone ----

  ghost predicate AddressesKept(s: State, s': State) {
    forall n | n in s.chans ::
      && n in s'.chans
      && s'.chans[n].name == s.chans[n].name
      && s'.chans[n].host == s.chans[n].host
      && s'.chans[n].dataPort == s.chans[n].dataPort
  }

  /** Only session `t` moves, and only its own entry of the tunnel table can change. */
  ghost predicate OnlyMoves(s: State, s': State, t: Tid) {
    && s'.cfg == s.cfg
    && t in s'.sessions
    && s'.sessions == s.sessions[t := s'.sessions[t]]
    && s'.active - {t} == s.active - {t}
    && AddressesKept(s, s')
  }

  ghost predicate SessionsKept(s: State, s': State) {
    && s'.cfg == s.cfg
    && s'.sessions == s.sessions
    && s'.active == s.active
    && s'.available == s.available
    && AddressesKept(s, s')
  }

  lemma AddressesStep(s: State, a: Action)
    requires Enabled(s, a)
    ensures AddressesKept(s, Apply(s, a))
  {
    assert Apply(s, a).chans == ChansAfter(s, a);
  }

  lemma ActiveFrame(s: State, a: Action)
    requires Enabled(s, a)
    ensures Actor(a).Some? ==> ActiveAfter(s, a) - {Actor(a).value} == s.active - {Actor(a).value}
    ensures Actor(a).None? ==> ActiveAfter(s, a) == s.active && AvailableAfter(s, a) == s.available
  {
  }

  lemma SessionFrame(s: State, a: Action)
    requires Enabled(s, a) && Actor(a).Some?
    ensures OnlyMoves(s, Apply(s, a), Actor(a).value)
  {
    ActiveFrame(s, a);
    AddressesStep(s, a);
  }

  lemma NodeFrame(s: State, a: Action)
    requires Enabled(s, a) && Actor(a).None?
    ensures SessionsKept(s, Apply(s, a))
  {
    ActiveFrame(s, a);
    AddressesStep(s, a);
  }

  // ---- Shape ----

  /** The registry keeps naming known node sessions. */
  lemma NodesKnownStep(s: State, a: Action)
    requires NodesKnown(s) && Enabled(s, a)
    ensures NodesKnown(Apply(s, a))
  {
    AddressesStep(s, a);
    var s' := Apply(s, a);
    forall n | n in s'.nodes
      ensures NodeKnown(s', NodeRef(n, s'.nodes[n].name, s'.nodes[n].host, s'.nodes[n].dataPort))
    {
      if n in s.nodes {
        assert s'.nodes[n] == s.nodes[n].(tunnelCount := s'.nodes[n].tunnelCount);
      } else {
        assert a.Join?;
      }
    }
  }

  ghost predicate EntryExact(s: State, t: Tid) {
    && (t in s.active <==> ListedAt(s, t))
    && (t in s.active ==> s.active[t] == EntryOf(t, s.sessions[t]))
  }

  /** The node a session refers to is the one it was handed, and that node stays known. */
  lemma NodeOfActor(s: State, a: Action)
    requires NodesKnown(s) && Enabled(s, a) && Actor(a).Some?
    requires Actor(a).value in s.sessions ==> SessionOk(s, Actor(a).value, s.sessions[Actor(a).value])
    ensures var c := SessionAfter(s, a); c.node.Some? ==> NodeKnown(Apply(s, a), c.node.value)
  {
    AddressesStep(s, a);
    var c := SessionAfter(s, a);
    if c.node.Some? {
      if a.Pick? {
        assert NodeKnown(s, c.node.value);
      } else {
        assert c.node == s.sessions[a.t].node;
      }
    }
  }

  lemma PathOfActor(s: State, a: Action)
    requires Enabled(s, a) && Actor(a).Some? && EntryExact(s, Actor(a).value)
    requires Actor(a).value in s.sessions ==> SessionOk(s, Actor(a).value, s.sessions[Actor(a).value])
    ensures var c := SessionAfter(s, a);
            && (ViaPc(c.pc) ==> c.via) && (NotViaPc(c.pc) ==> !c.via)
            && (c.via || c.pc == Picked ==> c.node.Some?)
  {
  }

  /** Only insertion and removal move a session into or out of the table's phases. */
  lemma ListingKept(s: State, a: Action)
    requires Enabled(s, a) && Actor(a).Some? && !a.Connect? && !a.InsertVia? && !a.InsertDirect? && !a.Remove?
    ensures var c := s.sessions[a.t]; var c' := SessionAfter(s, a);
            && Listed(c'.pc) == Listed(c.pc) && !c'.pc.Removed?
            && (Listed(c.pc) ==> EntryOf(a.t, c') == EntryOf(a.t, c))
  {
  }

  lemma EntryOfActor(s: State, a: Action)
    requires Enabled(s, a) && Actor(a).Some? && EntryExact(s, Actor(a).value)
    ensures var t := Actor(a).value; var c := SessionAfter(s, a); var active := ActiveAfter(s, a);
            && (t in active <==> Listed(c.pc))
            && (t in active ==> active[t] == EntryOf(t, c))
            && (c.pc == Removed ==> c.taken == Some(EntryOf(t, c)))
  {
    if !a.Connect? && !a.InsertVia? && !a.InsertDirect? && !a.Remove? {
      ListingKept(s, a);
    }
  }

  lemma {:induction false} ShapeStep(s: State, a: Action)
    requires Shape(s) && Enabled(s, a)
    ensures Shape(Apply(s, a))
  {
    var s' := Apply(s, a);
    NodesKnownStep(s, a);
    if Actor(a).Some? {
      var t := Actor(a).value;
      assert EntryExact(s, t);
      SessionFrame(s, a);
      NodeOfActor(s, a);
      PathOfActor(s, a);
      EntryOfActor(s, a);
      ShapeElsewhere(s, s', t);
    } else {
      NodeFrame(s, a);
      forall u ensures EntryExact(s', u) {
        assert EntryExact(s, u);
      }
      assert TableExact(s') by {
        assert forall u :: EntryExact(s', u) ==> (u in s'.active <==> ListedAt(s', u));
      }
    }
  }

  lemma ShapeElsewhere(s: State, s': State, t: Tid)
    requires Shape(s) && OnlyMoves(s, s', t) && NodesKnown(s')
    requires SessionOk(s', t, s'.sessions[t]) && EntryExact(s', t)
    ensures Shape(s')
  {
    forall u
      ensures u in s'.active <==> ListedAt(s', u)
      ensures u in s'.active ==> s'.active[u] == EntryOf(u, s'.sessions[u])
    {
      if u != t {
        assert u in s.active <==> u in s.active - {t};
        assert u in s'.active <==> u in s'.active - {t};
        assert u in s.active <==> ListedAt(s, u);
        assert u in s.active ==> (s.active - {t})[u] == s.active[u];
        assert u in s'.active ==> (s'.active - {t})[u] == s'.active[u];
      }
    }
  }

  // ---- The port pool ----

  /** Acquiring and releasing are the only steps that touch the pool or a holding. */
  lemma HoldingKept(s: State, a: Action)
    requires Enabled(s, a) && !a.Acquire? && !a.Release?
    ensures Actor(a).Some? ==>
      var t := Actor(a).value;
      && (Holds(SessionAfter(s, a).pc) <==> HoldsAt(s, t))
      && (HoldsAt(s, t) ==> SessionAfter(s, a).port == s.sessions[t].port)
  {
  }

  lemma PoolStep(s: State, a: Action)
    requires PoolExact(s) && Enabled(s, a)
    ensures PoolExact(Apply(s, a))
  {
    var s' := Apply(s, a);
    if a.Acquire? {
      PoolAcquired(s, a);
    } else if a.Release? {
      PoolReleased(s, a);
    } else {
      HoldingKept(s, a);
      assert s'.available == s.available;
      assert forall t :: HoldsAt(s', t) <==> HoldsAt(s, t);
      assert forall t | HoldsAt(s, t) :: s'.sessions[t].port == s.sessions[t].port;
      assert HeldPorts(s') == HeldPorts(s);
    }
  }

  /** Session `t` now stands at `c`; nobody else moved. */
  ghost predicate Moves(s: State, s': State, t: Tid, c: Session) {
    s'.cfg == s.cfg && s'.sessions == s.sessions[t := c]
  }

  /** A port leaves the pool for a session that held none. */
  lemma PoolTaken(s: State, s': State, t: Tid, c: Session)
    requires PoolExact(s) && Moves(s, s', t, c) && !HoldsAt(s, t) && Holds(c.pc)
    requires c.port in s.available && s'.available == s.available - {c.port}
    ensures PoolExact(s')
  {
    forall p: Port | InRange(s.cfg.range, p) ensures p in s'.available || p in HeldPorts(s') {
      if p in HeldPorts(s) {
        var u :| u in s.sessions && HoldsAt(s, u) && s.sessions[u].port == p;
        assert u in s'.sessions && HoldsAt(s', u) && s'.sessions[u].port == p;
      } else if p !in s'.available {
        assert HoldsAt(s', t) && s'.sessions[t].port == p;
      }
    }
  }

  /** A holder gives its port back. */
  lemma PoolReturned(s: State, s': State, t: Tid, c: Session)
    requires PoolExact(s) && Moves(s, s', t, c) && HoldsAt(s, t) && !Holds(c.pc)
    requires s'.available == s.available + {s.sessions[t].port}
    ensures PoolExact(s')
  {
    forall p: Port | InRange(s.cfg.range, p) ensures p in s'.available || p in HeldPorts(s') {
      if p !in s'.available {
        var u :| u in s.sessions && HoldsAt(s, u) && s.sessions[u].port == p;
        assert u in s'.sessions && HoldsAt(s', u) && s'.sessions[u].port == p;
      }
    }
  }

  /** A session that holds nothing before and after. */
  lemma PoolRefused(s: State, s': State, t: Tid, c: Session)
    requires PoolExact(s) && Moves(s, s', t, c) && !HoldsAt(s, t) && !Holds(c.pc) && s'.available == s.available
    ensures PoolExact(s')
  {
    assert forall u :: HoldsAt(s', u) <==> HoldsAt(s, u);
    assert HeldPorts(s') == HeldPorts(s);
  }

  lemma PoolAcquired(s: State, a: Action)
    requires PoolExact(s) && Enabled(s, a) && a.Acquire?
    ensures PoolExact(Apply(s, a))
  {
    if a.port.Some? {
      PoolTaken(s, Apply(s, a), a.t, SessionAfter(s, a));
    } else {
      PoolRefused(s, Apply(s, a), a.t, SessionAfter(s, a));
    }
  }

  lemma PoolReleased(s: State, a: Action)
    requires PoolExact(s) && Enabled(s, a) && a.Release?
    ensures PoolExact(Apply(s, a))
  {
    assert HoldsAt(s, a.t);
    PoolReturned(s, Apply(s, a), a.t, SessionAfter(s, a));
  }
}
