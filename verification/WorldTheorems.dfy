/** What holds in every run of the whole system, from an empty server on. */
module WorldTheorems {
  import opened Wrappers
  import opened Ports
  import opened Nodes
  import Control
  import opened ControlShape
  import opened ControlCounts
  import opened ControlLog
  import opened ControlOrders
  import opened ControlInvariant
  import opened World
  import opened WorldInvariant

  ghost predicate Happened(cfg: Control.Config, run: seq<Action>, w: State) {
    Valid(Init(cfg), run) && w == Exec(Init(cfg), run)
  }

  lemma HappenedInv(cfg: Control.Config, run: seq<Action>, w: State)
    requires Happened(cfg, run, w)
    ensures WInv(w)
    ensures w.ctrl.cfg == cfg
  {
    WInvInit(cfg);
    WInvRun(Init(cfg), run);
    CtrlRunValid(Init(cfg), run);
    ConfigKept(Control.Init(cfg), CtrlRun(Init(cfg), run));
  }

  /** The control plane of any run is the control plane of a run of its own. */
  lemma HappenedReached(cfg: Control.Config, run: seq<Action>, w: State)
    requires Happened(cfg, run, w)
    ensures Reached(cfg, CtrlRun(Init(cfg), run), w.ctrl)
  {
    CtrlRunValid(Init(cfg), run);
  }

  // ---- Pairing ----

  /**
   Isolation. Whenever a visitor has been spliced to a data socket, on the server or on a
   node: the socket announced this visitor's id; it was opened by the CLI that owns the
   tunnel on whose public port the visitor arrived, towards that CLI's local port; it was
   dialled where the visitor was waiting; and no other visitor was ever given this socket.
   */
  lemma PairingIsolation(cfg: Control.Config, run: seq<Action>, w: State, c: Cid, d: Did)
    requires Happened(cfg, run, w) && PairOf(w, c, d)
    ensures d in w.sockets
    ensures var k, v := w.sockets[d], w.visitors[c];
            && k.cid == c
            && k.to == v.at
            && k.cli == v.tid
            && v.tid in w.ctrl.sessions
            && w.ctrl.sessions[v.tid].port == v.port
            && k.localPort == w.ctrl.sessions[v.tid].reg.localPort
    ensures forall e | PairOf(w, e, d) :: e == c
    ensures forall e | PairOf(w, c, e) :: e == d
  {
    HappenedInv(cfg, run, w);
    assert SocketNamed(w, w.sockets[d]);
    assert VisitorPlaced(w.ctrl, w.visitors[c]);
  }

  /** A visitor and its socket are never parted to be spliced again. */
  lemma PairKeptStep(w: State, a: Action, c: Cid, d: Did)
    requires Enabled(w, a) && PairOf(w, c, d)
    ensures PairOf(Apply(w, a), c, d)
  {
  }

  lemma {:induction false} PairKept(w: State, run: seq<Action>, c: Cid, d: Did)
    requires Valid(w, run) && PairOf(w, c, d)
    ensures PairOf(Exec(w, run), c, d)
    decreases |run|
  {
    if run != [] {
      PairKeptStep(w, run[0], c, d);
      PairKept(Apply(w, run[0]), run[1..], c, d);
    }
  }

  // ---- Conservation ----

  /**
   Rendezvous. While a visitor waits, its sender is in exactly one place: under its id in
   `pending`, or with exactly one data socket. Once nobody waits on the server side, its
   `pending` no longer knows the id. A connection is archived exactly once if and only if
   it was spliced and is over.
   */
  lemma Rendezvous(cfg: Control.Config, run: seq<Action>, w: State, c: Cid)
    requires Happened(cfg, run, w) && c in w.visitors
    ensures Listening(w.visitors[c]) ==>
              (c in w.pending <==> !exists d :: Engaged(w, d, c))
    ensures forall d, e | Engaged(w, d, c) && Engaged(w, e, c) :: d == e
    ensures w.visitors[c].node.None? && c in w.pending ==>
              Listening(w.visitors[c]) || w.visitors[c].phase == TimedOut
    ensures FiledOf(w.connections, c) ==
            if w.visitors[c].phase.Filed?
            then [ConnectionOf(c, w.visitors[c], w.visitors[c].phase.until)] else []
  {
    HappenedInv(cfg, run, w);
    if Listening(w.visitors[c]) {
      assert SenderOut(w, c);
    }
  }

  // ---- Quiescence ----

  function OpenedIds(log: seq<Control.Event>): seq<Tid> {
    if log == [] then []
    else OpenedIds(log[..|log| - 1]) + if log[|log| - 1].TunnelOpened? then [log[|log| - 1].tid] else []
  }

  function ClosedIds(log: seq<Control.Event>): seq<Tid> {
    if log == [] then []
    else ClosedIds(log[..|log| - 1]) + if log[|log| - 1].TunnelClosed? then [log[|log| - 1].closed] else []
  }

  function ArchivedIds(archive: seq<Control.TunnelRecord>): seq<Tid> {
    if archive == [] then [] else ArchivedIds(archive[..|archive| - 1]) + [archive[|archive| - 1].tid]
  }

  lemma IdsAppend(log: seq<Control.Event>, e: Control.Event)
    ensures OpenedIds(log + [e]) == if e.TunnelOpened? then OpenedIds(log) + [e.tid] else OpenedIds(log)
    ensures ClosedIds(log + [e]) == if e.TunnelClosed? then ClosedIds(log) + [e.closed] else ClosedIds(log)
  {
    assert (log + [e])[..|log|] == log;
    assert OpenedIds(log) + [] == OpenedIds(log);
    assert ClosedIds(log) + [] == ClosedIds(log);
  }

  lemma {:induction false} IdsOf(log: seq<Control.Event>, t: Tid)
    ensures multiset(OpenedIds(log))[t] == |OpenedIds(Of(log, t))|
    ensures multiset(ClosedIds(log))[t] == |ClosedIds(Of(log, t))|
    decreases |log|
  {
    if log != [] {
      var before := log[..|log| - 1];
      var e := log[|log| - 1];
      IdsOf(before, t);
      assert log == before + [e];
      IdsAppend(before, e);
      if About(e, t) {
        IdsAppend(Of(before, t), e);
      } else {
        assert Of(before, t) + [] == Of(before, t);
      }
    }
  }

  lemma {:induction false} ArchivedIdsOf(archive: seq<Control.TunnelRecord>, t: Tid)
    ensures multiset(ArchivedIds(archive))[t] == |RecordsOf(archive, t)|
    decreases |archive|
  {
    if archive != [] {
      ArchivedIdsOf(archive[..|archive| - 1], t);
    }
  }

  predicate SessionOver(pc: Control.Pc) {
    pc.Rejected? || pc.EndedClosed? || pc.EndedUnlisted?
  }

  /** Every CLI session has returned, and every visitor task the server spawned has ended. */
  ghost predicate Quiet(w: State) {
    && (forall t | t in w.ctrl.sessions :: SessionOver(w.ctrl.sessions[t].pc))
    && (forall c | c in w.visitors && w.visitors[c].node.None? ::
          InHand(w.visitors[c]) || w.visitors[c].phase == Dropped || w.visitors[c].phase.Filed?)
  }

  lemma LifeIds(opening: Control.Event, closing: Control.Event)
    requires opening.TunnelOpened? && closing.TunnelClosed?
    ensures |OpenedIds([opening, closing])| == 1 && |ClosedIds([opening, closing])| == 1
  {
    assert [] + [opening] == [opening] && [opening] + [closing] == [opening, closing];
    IdsAppend([], opening);
    IdsAppend([opening], closing);
  }

  /** What one ended session has left in the log and in the history. */
  lemma QuietIds(s: Control.State, t: Tid)
    requires Of(s.log, t) == TraceAt(s, t) && RecordExact(s, t)
    requires t in s.sessions ==> SessionOver(s.sessions[t].pc)
    ensures multiset(OpenedIds(s.log))[t] == multiset(ClosedIds(s.log))[t] == multiset(ArchivedIds(s.archive))[t]
  {
    IdsOf(s.log, t);
    ArchivedIdsOf(s.archive, t);
    if t in s.sessions && CloseSeen(s.sessions[t].pc) {
      LifeIds(Control.OpenedEvent(t, s.sessions[t]), Control.TunnelClosed(t));
    }
  }

  /** With no session holding a port or listed, pool and table are as at the start. */
  lemma QuietTables(s: Control.State)
    requires TableExact(s) && PoolExact(s) && CountsExact(s)
    requires forall t | t in s.sessions :: SessionOver(s.sessions[t].pc)
    ensures s.available == All(s.cfg.range) && s.active == map[]
    ensures forall n | n in s.nodes :: s.nodes[n].tunnelCount == 0
  {
    forall t ensures !HoldsAt(s, t) && !ListedAt(s, t) {
    }
    forall p: Port ensures p in s.available <==> p in All(s.cfg.range) {
      assert p in All(s.cfg.range) <==> InRange(s.cfg.range, p);
    }
    forall t ensures t !in s.active {
      assert t in s.active <==> ListedAt(s, t);
    }
    forall n | n in s.nodes ensures s.nodes[n].tunnelCount == 0 {
      assert CountedOn(s, n) == {};
    }
  }

  /**
   Quiescence. In any run, once all CLI sessions and visitor tasks have ended, everything
   is back: every port is free, the tunnel table and the server's `pending` are empty, every
   node's counter is zero, and the tunnels that opened, that closed and that were archived
   are the same, with the same multiplicities.
   */
  lemma Quiescence(cfg: Control.Config, run: seq<Action>, w: State)
    requires Happened(cfg, run, w) && Quiet(w)
    ensures w.ctrl.available == All(cfg.range)
    ensures w.ctrl.active == map[]
    ensures forall c | c in w.pending :: c in w.visitors && w.visitors[c].node.Some?
    ensures forall n | n in w.ctrl.nodes :: w.ctrl.nodes[n].tunnelCount == 0
    ensures multiset(OpenedIds(w.ctrl.log)) == multiset(ClosedIds(w.ctrl.log)) == multiset(ArchivedIds(w.ctrl.archive))
  {
    HappenedInv(cfg, run, w);
    var s := w.ctrl;
    QuietTables(s);
    assert forall c | c in w.visitors && InHand(w.visitors[c]) && w.visitors[c].node.None? ::
        Control.At(s, w.visitors[c].tid, Control.ServingDirect);
    forall t: Tid
      ensures multiset(OpenedIds(s.log))[t] == multiset(ClosedIds(s.log))[t] == multiset(ArchivedIds(s.archive))[t]
    {
      assert RecordExact(s, t);
      QuietIds(s, t);
    }
  }
}
