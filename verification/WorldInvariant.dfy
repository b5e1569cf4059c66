/** What every step of the whole system keeps: who may serve whom, and where each sender is. */
module WorldInvariant {
  import opened Wrappers
  import opened Ports
  import opened Nodes
  import Control
  import opened ControlShape
  import opened ControlOrders
  import opened ControlInvariant
  import opened World

  // ---- Identity: every id travels only towards the CLI that owns the tunnel ----

  ghost predicate Names(w: State, c: Cid, t: Tid, to: Endpoint) {
    c in w.visitors && w.visitors[c].tid == t && w.visitors[c].at == to
  }

  ghost predicate FramesNamed(w: State) {
    forall t, i | t in w.cliFrames && 0 <= i < |w.cliFrames[t]| && w.cliFrames[t][i].NewConn? ::
      Names(w, w.cliFrames[t][i].cid, t, w.cliFrames[t][i].to)
  }

  ghost predicate ReportsNamed(w: State) {
    forall n, i | n in w.reports && 0 <= i < |w.reports[n]| ::
      && w.reports[n][i].cid in w.visitors
      && w.visitors[w.reports[n][i].cid].tid == w.reports[n][i].tid
      && w.visitors[w.reports[n][i].cid].node == Some(n)
  }

  ghost predicate JobsNamed(w: State) {
    forall n | n in w.jobs :: Names(w, w.jobs[n].cid, w.jobs[n].cli, w.jobs[n].to)
  }

  /** A visitor belongs to the session whose port it hit, at the place where that session is served. */
  ghost predicate VisitorPlaced(s: Control.State, v: Visitor) {
    && v.tid in s.sessions
    && !BeforeOrder(s.sessions[v.tid].pc)
    && s.sessions[v.tid].port == v.port
    && (v.node.None? ==> v.at == Server)
    && (v.node.Some? ==>
          v.node.value in s.chans && v.at == EdgeOf(s, v.node.value) && OnNode(s, v.tid, v.node.value))
  }

  ghost predicate VisitorsPlaced(w: State) {
    forall c | c in w.visitors :: VisitorPlaced(w.ctrl, w.visitors[c])
  }

  ghost predicate SocketNamed(w: State, k: Socket) {
    && Names(w, k.cid, k.cli, k.to)
    && k.cli in w.ctrl.sessions
    && k.localPort == w.ctrl.sessions[k.cli].reg.localPort
  }

  ghost predicate SocketsNamed(w: State) {
    forall d | d in w.sockets :: SocketNamed(w, w.sockets[d])
  }

  /** A visitor's identity never changes. */
  lemma VisitorsKept(w: State, a: Action)
    requires Enabled(w, a)
    ensures var w' := Apply(w, a);
            forall c | c in w.visitors ::
              && c in w'.visitors
              && w'.visitors[c] == w.visitors[c].(phase := w'.visitors[c].phase, since := w'.visitors[c].since)
  {
  }

  lemma NamesKept(w: State, a: Action)
    requires Enabled(w, a)
    ensures forall c, t, to | Names(w, c, t, to) :: Names(Apply(w, a), c, t, to)
  {
    VisitorsKept(w, a);
  }

  lemma SessionsSettled(s: Control.State, x: Control.Action)
    requires Control.Enabled(s, x)
    ensures var s' := Control.Apply(s, x);
            forall t | t in s.sessions ::
              && t in s'.sessions
              && s'.sessions[t].reg == s.sessions[t].reg
              && (!BeforeOrder(s.sessions[t].pc) ==>
                    !BeforeOrder(s'.sessions[t].pc)
                    && s'.sessions[t].node == s.sessions[t].node
                    && s'.sessions[t].port == s.sessions[t].port)
  {
    if Control.Actor(x).Some? && Control.Actor(x).value in s.sessions {
      OrderSettled(s, x);
      RegKept(s, x);
    }
  }

  lemma RegKept(s: Control.State, x: Control.Action)
    requires Control.Enabled(s, x) && Control.Actor(x).Some? && !x.Connect?
    ensures Control.SessionAfter(s, x).reg == s.sessions[x.t].reg
  {
  }

  /** The control plane as it is after a step of the whole system. */
  lemma CtrlSettled(w: State, a: Action)
    requires Enabled(w, a)
    ensures var s, s' := w.ctrl, Apply(w, a).ctrl;
            && AddressesKept(s, s')
            && forall t | t in s.sessions ::
                && t in s'.sessions
                && s'.sessions[t].reg == s.sessions[t].reg
                && (!BeforeOrder(s.sessions[t].pc) ==>
                      !BeforeOrder(s'.sessions[t].pc)
                      && s'.sessions[t].node == s.sessions[t].node
                      && s'.sessions[t].port == s.sessions[t].port)
  {
    if CtrlStep(w, a).Some? {
      CtrlStepEnabled(w, a);
      SessionsSettled(w.ctrl, CtrlStep(w, a).value);
      AddressesStep(w.ctrl, CtrlStep(w, a).value);
    }
  }

  lemma PlacedKept(w: State, a: Action, v: Visitor)
    requires Enabled(w, a) && VisitorPlaced(w.ctrl, v)
    ensures VisitorPlaced(Apply(w, a).ctrl, v)
  {
    CtrlSettled(w, a);
  }

  /** A newly accepted visitor hit a port of the session that opened the listener. */
  lemma AcceptedPlaced(w: State, a: Action)
    requires Enabled(w, a) && (a.AcceptHere? || a.AcceptAtNode?) && OrdersExact(w.ctrl)
    ensures VisitorPlaced(w.ctrl, Moved(w, a).value.1)
  {
    if a.AcceptAtNode? {
      assert StreamExact(w.ctrl, a.n);
      var f := w.ctrl.chans[a.n].frames[a.i];
      assert Ordered(w.ctrl, f.tid, a.n, f.port);
    }
  }

  lemma VisitorsPlacedStep(w: State, a: Action)
    requires VisitorsPlaced(w) && OrdersExact(w.ctrl) && Enabled(w, a)
    ensures VisitorsPlaced(Apply(w, a))
  {
    var w' := Apply(w, a);
    VisitorsKept(w, a);
    forall c | c in w'.visitors ensures VisitorPlaced(w'.ctrl, w'.visitors[c]) {
      if c in w.visitors {
        PlacedKept(w, a, w.visitors[c]);
      } else {
        AcceptedPlaced(w, a);
        PlacedKept(w, a, Moved(w, a).value.1);
      }
    }
  }

  lemma WrittenNamed(w: State, a: Action)
    requires JobsNamed(w) && VisitorsPlaced(w) && Enabled(w, a)
    ensures Written(w, a).Some? && Written(w, a).value.1.NewConn? ==>
              var x := Written(w, a).value; Names(w, x.1.cid, x.0, x.1.to)
  {
  }

  lemma FramesNamedStep(w: State, a: Action)
    requires FramesNamed(w) && JobsNamed(w) && VisitorsPlaced(w) && Enabled(w, a)
    ensures FramesNamed(Apply(w, a))
  {
    var w' := Apply(w, a);
    NamesKept(w, a);
    WrittenNamed(w, a);
    forall t, i | t in w'.cliFrames && 0 <= i < |w'.cliFrames[t]| && w'.cliFrames[t][i].NewConn?
      ensures Names(w', w'.cliFrames[t][i].cid, t, w'.cliFrames[t][i].to)
    {
      if t in w.cliFrames && i < |w.cliFrames[t]| {
        assert w'.cliFrames[t][i] == w.cliFrames[t][i];
        assert Names(w, w.cliFrames[t][i].cid, t, w.cliFrames[t][i].to);
      } else {
        assert Written(w, a).Some? && Written(w, a).value == (t, w'.cliFrames[t][i]);
      }
    }
  }

  lemma ReportsNamedStep(w: State, a: Action)
    requires ReportsNamed(w) && Enabled(w, a)
    ensures ReportsNamed(Apply(w, a))
  {
    VisitorsKept(w, a);
  }

  /** A route leads where the reported visitor is: its tunnel has one node, the one that reported it. */
  lemma RoutedNamed(w: State, n: Nid)
    requires ReportsNamed(w) && VisitorsPlaced(w) && JobsNamed(w) && Shape(w.ctrl)
    requires ReadOf(w, n) < |ReportsOf(w, n)|
    ensures var jobs := Routed(w, n); n in jobs && jobs != w.jobs ==> Names(w, jobs[n].cid, jobs[n].cli, jobs[n].to)
  {
    var r := w.reports[n][ReadOf(w, n)];
    var v := w.visitors[r.cid];
    assert VisitorPlaced(w.ctrl, v);
    if r.tid in w.ctrl.active && w.ctrl.active[r.tid].route.Some? {
      assert w.ctrl.active[r.tid] == Control.EntryOf(r.tid, w.ctrl.sessions[r.tid]);
      assert SessionOk(w.ctrl, r.tid, w.ctrl.sessions[r.tid]);
    }
  }

  lemma JobsNamedStep(w: State, a: Action)
    requires ReportsNamed(w) && VisitorsPlaced(w) && JobsNamed(w) && Shape(w.ctrl) && Enabled(w, a)
    ensures JobsNamed(Apply(w, a))
  {
    NamesKept(w, a);
    if a.LookUp? {
      RoutedNamed(w, a.n);
    }
  }

  /** A socket's identity never changes, and only a dial creates one. */
  lemma SocketsKept(w: State, a: Action)
    requires Enabled(w, a)
    ensures var w' := Apply(w, a);
            && (forall d | d in w.sockets ::
                  d in w'.sockets && w'.sockets[d] == w.sockets[d].(phase := w'.sockets[d].phase))
            && (forall d | d in w'.sockets && d !in w.sockets :: a.Dial? && a.d == d)
  {
  }

  lemma DialNamed(w: State, a: Action)
    requires FramesNamed(w) && Enabled(w, a) && a.Dial?
    ensures SocketNamed(w, SocketsAfter(w, a)[a.d])
  {
  }

  lemma SocketsNamedStep(w: State, a: Action)
    requires FramesNamed(w) && SocketsNamed(w) && Enabled(w, a)
    ensures SocketsNamed(Apply(w, a))
  {
    var w' := Apply(w, a);
    SocketsKept(w, a);
    forall d | d in w'.sockets ensures SocketNamed(w', w'.sockets[d]) {
      var k := if d in w.sockets then w.sockets[d] else w'.sockets[d];
      if d !in w.sockets {
        DialNamed(w, a);
      }
      SocketNamedKept(w, a, k);
    }
  }

  lemma SocketNamedKept(w: State, a: Action, k: Socket)
    requires Enabled(w, a) && SocketNamed(w, k)
    ensures forall phase :: SocketNamed(Apply(w, a), k.(phase := phase))
  {
    VisitorsKept(w, a);
    CtrlSettled(w, a);
  }

  // ---- Senders: each visitor's sender is in one place ----

  /** The sender of `c` has left `pending` with socket `d` and its fate is not a failure. */
  ghost predicate Engaged(w: State, d: Did, c: Cid) {
    && d in w.sockets && w.sockets[d].cid == c
    && (w.sockets[d].phase == Carrying || w.sockets[d].phase == InChannel || w.sockets[d].phase == Joined)
  }

  ghost predicate OneSender(w: State) {
    && (forall c, d | c in w.pending :: !Engaged(w, d, c))
    && (forall c, d, e | Engaged(w, d, c) && Engaged(w, e, c) :: d == e)
  }

  /** The socket a visitor was spliced to, if it ever was. */
  function SocketOf(v: Visitor): Option<Did> {
    match v.phase
    case Spliced(d) => Some(d)
    case Over(d) => Some(d)
    case Filed(d, until) => Some(d)
    case _ => None
  }

  ghost predicate PairOf(w: State, c: Cid, d: Did) {
    c in w.visitors && SocketOf(w.visitors[c]) == Some(d)
  }

  /** Splicing is mutual. */
  ghost predicate Mutual(w: State) {
    && (forall c, d | PairOf(w, c, d) :: d in w.sockets && w.sockets[d].cid == c && w.sockets[d].phase == Joined)
    && (forall d | d in w.sockets && w.sockets[d].phase == Joined :: PairOf(w, w.sockets[d].cid, d))
  }

  /** A socket lies in a channel only while somebody listens. */
  ghost predicate ChannelsHeard(w: State) {
    forall d | d in w.sockets && w.sockets[d].phase == InChannel ::
      w.sockets[d].cid in w.visitors && Listening(w.visitors[w.sockets[d].cid])
  }

  /** A key of `pending` belongs to a visitor whose task has not finished cleaning up
      (on a node, `abort` may also have cut the accept loop short). */
  ghost predicate PendingOwned(w: State) {
    forall c | c in w.pending ::
      && c in w.visitors
      && (Listening(w.visitors[c]) || w.visitors[c].phase == TimedOut
          || (w.visitors[c].phase == Dropped && w.visitors[c].node.Some?))
  }

  ghost predicate SenderOut(w: State, c: Cid) {
    c in w.pending || exists d :: Engaged(w, d, c) && w.sockets[d].phase != Joined
  }

  /** While a visitor listens its sender exists: in `pending`, in a handler's hand, or used. */
  ghost predicate SendersOut(w: State) {
    forall c | c in w.visitors && Listening(w.visitors[c]) :: SenderOut(w, c)
  }

  /** How a step can move one socket. */
  lemma SocketMoves(w: State, a: Action, d: Did)
    requires Enabled(w, a) && d in w.sockets
    ensures var k, k' := w.sockets[d], SocketsAfter(w, a)[d];
            && k'.cid == k.cid
            && (k'.phase == Joined <==> k.phase == Joined || (a.Splice? && a.d == d))
            && (a.Splice? && a.d == d ==> k.phase == InChannel && k.cid == a.c)
            && (k'.phase == Carrying || k'.phase == InChannel || k'.phase == Joined ==>
                  k.phase == Carrying || k.phase == InChannel || k.phase == Joined
                  || (a.Take? && a.d == d && k.cid in w.pending && k'.phase == Carrying))
  {
  }

  lemma EngagedMoves(w: State, a: Action, d: Did, c: Cid)
    requires Enabled(w, a) && Engaged(Apply(w, a), d, c)
    ensures Engaged(w, d, c) || (a.Take? && a.d == d && c in w.pending && c !in PendingAfter(w, a))
  {
    SocketsKept(w, a);
    if d in w.sockets {
      SocketMoves(w, a, d);
    }
  }

  lemma PendingMoves(w: State, a: Action, c: Cid)
    requires Enabled(w, a) && c in PendingAfter(w, a)
    ensures c in w.pending || c !in w.visitors
  {
  }

  lemma OneSenderStep(w: State, a: Action)
    requires OneSender(w) && SocketsNamed(w) && Enabled(w, a)
    ensures OneSender(Apply(w, a))
  {
    var w' := Apply(w, a);
    forall c, d | Engaged(w, d, c) ensures c in w.visitors {
      assert SocketNamed(w, w.sockets[d]);
    }
    forall c, d | c in w'.pending ensures !Engaged(w', d, c) {
      PendingMoves(w, a, c);
      if Engaged(w', d, c) {
        EngagedMoves(w, a, d, c);
      }
    }
    forall c, d, e | Engaged(w', d, c) && Engaged(w', e, c) ensures d == e {
      EngagedMoves(w, a, d, c);
      EngagedMoves(w, a, e, c);
    }
  }

  lemma PairMoves(w: State, a: Action, c: Cid, d: Did)
    requires Enabled(w, a) && c in w.visitors
    ensures PairOf(Apply(w, a), c, d) <==>
            ((PairOf(w, c, d) && !(a.Splice? && a.c == c)) || (a.Splice? && a.c == c && a.d == d))
    ensures a.Splice? && a.c == c ==> SocketOf(w.visitors[c]) == None
  {
  }

  lemma MutualStep(w: State, a: Action)
    requires Mutual(w) && SocketsNamed(w) && Enabled(w, a)
    ensures Mutual(Apply(w, a))
  {
    var w' := Apply(w, a);
    SocketsKept(w, a);
    forall c, d | PairOf(w', c, d)
      ensures d in w'.sockets && w'.sockets[d].cid == c && w'.sockets[d].phase == Joined
    {
      if c in w.visitors {
        PairMoves(w, a, c, d);
        SocketMoves(w, a, d);
      }
    }
    forall d | d in w'.sockets && w'.sockets[d].phase == Joined ensures PairOf(w', w'.sockets[d].cid, d) {
      if d in w.sockets {
        SocketMoves(w, a, d);
        assert SocketNamed(w, w.sockets[d]);
        PairMoves(w, a, w.sockets[d].cid, d);
      }
    }
  }

  lemma ChannelsHeardStep(w: State, a: Action)
    requires ChannelsHeard(w) && OneSender(w) && Enabled(w, a)
    ensures ChannelsHeard(Apply(w, a))
  {
    var w' := Apply(w, a);
    forall d | d in w'.sockets && w'.sockets[d].phase == InChannel
      ensures w'.sockets[d].cid in w'.visitors && Listening(w'.visitors[w'.sockets[d].cid])
    {
      var c := w'.sockets[d].cid;
      assert d in w.sockets && w.sockets[d].cid == c;
      if a.Splice? && a.c == c {
        assert Engaged(w, a.d, c);
        assert a.d != d ==> Engaged(w, d, c);
      }
    }
  }

  lemma PendingOwnedStep(w: State, a: Action)
    requires PendingOwned(w) && OneSender(w) && Enabled(w, a)
    ensures PendingOwned(Apply(w, a))
  {
    var w' := Apply(w, a);
    forall c | c in w'.pending
      ensures c in w'.visitors
      ensures Listening(w'.visitors[c]) || w'.visitors[c].phase == TimedOut
              || (w'.visitors[c].phase == Dropped && w'.visitors[c].node.Some?)
    {
      if a.Splice? && a.c == c {
        assert Engaged(w, a.d, c);
      }
    }
  }

  /** A sender in use stays in use while its visitor goes on listening. */
  lemma SenderMoves(w: State, a: Action, d: Did, c: Cid)
    requires Enabled(w, a) && Engaged(w, d, c) && w.sockets[d].phase != Joined && c in w.visitors
    requires Listening(w.visitors[c]) && c in VisitorsAfter(w, a) && Listening(VisitorsAfter(w, a)[c])
    ensures Engaged(Apply(w, a), d, c) && Apply(w, a).sockets[d].phase != Joined
  {
  }

  lemma PendingLeaves(w: State, a: Action, c: Cid)
    requires Enabled(w, a) && c in w.pending && c !in PendingAfter(w, a)
    requires c in VisitorsAfter(w, a) && Listening(VisitorsAfter(w, a)[c])
    ensures a.Take? && Engaged(Apply(w, a), a.d, c) && Apply(w, a).sockets[a.d].phase == Carrying
  {
  }

  lemma ListenersOld(w: State, a: Action, c: Cid)
    requires Enabled(w, a) && c in VisitorsAfter(w, a) && Listening(VisitorsAfter(w, a)[c])
    ensures (c in w.visitors && Listening(w.visitors[c])) || c in PendingAfter(w, a)
  {
  }

  lemma SendersOutStep(w: State, a: Action)
    requires SendersOut(w) && Enabled(w, a)
    ensures SendersOut(Apply(w, a))
  {
    var w' := Apply(w, a);
    forall c | c in w'.visitors && Listening(w'.visitors[c]) ensures SenderOut(w', c) {
      ListenersOld(w, a, c);
      if c !in w'.pending {
        assert SenderOut(w, c);
        if c in w.pending {
          PendingLeaves(w, a, c);
        } else {
          var d :| Engaged(w, d, c) && w.sockets[d].phase != Joined;
          SenderMoves(w, a, d, c);
        }
      }
    }
  }

  // ---- Bookkeeping ----

  /** A visitor still being announced on the direct path belongs to a session still serving. */
  ghost predicate NotedServed(w: State) {
    forall c | c in w.visitors && InHand(w.visitors[c]) && w.visitors[c].node.None? ::
      Control.At(w.ctrl, w.visitors[c].tid, Control.ServingDirect)
  }

  lemma ServingKept(s: Control.State, x: Control.Action, t: Tid)
    requires Control.Enabled(s, x) && Control.At(s, t, Control.ServingDirect) && !(x.LeaveDirect? && x.t == t)
    ensures Control.At(Control.Apply(s, x), t, Control.ServingDirect)
  {
  }

  lemma NotedOld(w: State, a: Action, c: Cid)
    requires Enabled(w, a)
    requires var v := VisitorsAfter(w, a); c in v && InHand(v[c]) && v[c].node.None?
    ensures var t := VisitorsAfter(w, a)[c].tid;
            || (c in w.visitors && InHand(w.visitors[c]) && w.visitors[c].node.None? && w.visitors[c].tid == t
                && !(a.Forget? && a.c == c))
            || (a.AcceptHere? && a.c == c && a.t == t)
  {
  }

  /** A session leaves its accept loop only when it has no visitor in hand, or by forgetting it. */
  lemma LeavesIdle(w: State, a: Action, c: Cid)
    requires NotedServed(w) && OneNoted(w) && Enabled(w, a)
    requires c in w.visitors && InHand(w.visitors[c]) && w.visitors[c].node.None? && !(a.Forget? && a.c == c)
    ensures Control.At(Apply(w, a).ctrl, w.visitors[c].tid, Control.ServingDirect)
  {
    var t := w.visitors[c].tid;
    assert Control.At(w.ctrl, t, Control.ServingDirect);
    if CtrlStep(w, a).Some? {
      CtrlStepEnabled(w, a);
      var x := CtrlStep(w, a).value;
      assert !(x.LeaveDirect? && x.t == t);
      ServingKept(w.ctrl, x, t);
    }
  }

  lemma NotedServedStep(w: State, a: Action)
    requires NotedServed(w) && OneNoted(w) && Enabled(w, a)
    ensures NotedServed(Apply(w, a)) && OneNoted(Apply(w, a))
  {
    var w' := Apply(w, a);
    forall c | c in w'.visitors && InHand(w'.visitors[c]) && w'.visitors[c].node.None?
      ensures Control.At(w'.ctrl, w'.visitors[c].tid, Control.ServingDirect)
    {
      NotedOld(w, a, c);
      if !a.AcceptHere? {
        LeavesIdle(w, a, c);
      }
    }
    forall c, e | c in w'.visitors && e in w'.visitors && InHand(w'.visitors[c]) && InHand(w'.visitors[e])
        && w'.visitors[c].node.None? && w'.visitors[e].node.None? && w'.visitors[c].tid == w'.visitors[e].tid
      ensures c == e
    {
      NotedOld(w, a, c);
      NotedOld(w, a, e);
    }
  }

  /** The accept loop handles one visitor at a time. */
  ghost predicate OneNoted(w: State) {
    forall c, e | c in w.visitors && e in w.visitors && InHand(w.visitors[c]) && InHand(w.visitors[e])
        && w.visitors[c].node.None? && w.visitors[e].node.None? && w.visitors[c].tid == w.visitors[e].tid :: c == e
  }

  /** The connection records of one visitor. */
  function FiledOf(connections: seq<ConnRecord>, c: Cid): seq<ConnRecord> {
    if connections == [] then []
    else FiledOf(connections[..|connections| - 1], c)
         + if connections[|connections| - 1].cid == c then [connections[|connections| - 1]] else []
  }

  /** Archived once, exactly when spliced and over. */
  ghost predicate FiledExact(w: State) {
    forall c: Cid ::
      FiledOf(w.connections, c)
      == if c in w.visitors && w.visitors[c].phase.Filed?
         then [ConnectionOf(c, w.visitors[c], w.visitors[c].phase.until)] else []
  }

  lemma FiledAppend(connections: seq<ConnRecord>, r: ConnRecord, c: Cid)
    ensures FiledOf(connections + [r], c) == FiledOf(connections, c) + if r.cid == c then [r] else []
  {
    assert (connections + [r])[..|connections|] == connections;
  }

  lemma FiledMoves(w: State, a: Action, c: Cid)
    requires Enabled(w, a)
    ensures var v := VisitorsAfter(w, a);
            (c in v && v[c].phase.Filed?) <==>
            ((c in w.visitors && w.visitors[c].phase.Filed?) || (a.File? && a.c == c))
    ensures c in w.visitors && w.visitors[c].phase.Filed? ==> VisitorsAfter(w, a)[c] == w.visitors[c]
    ensures a.File? && a.c == c ==>
              c in w.visitors && !w.visitors[c].phase.Filed?
              && ConnectionOf(c, VisitorsAfter(w, a)[c], a.now) == ConnectionOf(c, w.visitors[c], a.now)
              && VisitorsAfter(w, a)[c].phase.until == a.now
  {
  }

  lemma FiledExactStep(w: State, a: Action)
    requires FiledExact(w) && Enabled(w, a)
    ensures FiledExact(Apply(w, a))
  {
    var w' := Apply(w, a);
    VisitorsKept(w, a);
    forall c: Cid
      ensures FiledOf(w'.connections, c)
              == if c in w'.visitors && w'.visitors[c].phase.Filed?
                 then [ConnectionOf(c, w'.visitors[c], w'.visitors[c].phase.until)] else []
    {
      FiledMoves(w, a, c);
      if a.File? {
        FiledAppend(w.connections, ConnectionOf(a.c, w.visitors[a.c], a.now), c);
      } else {
        assert w'.connections == w.connections;
      }
    }
  }

  // ---- The invariant ----

  ghost predicate WInv(w: State) {
    && Inv(w.ctrl)
    && VisitorsPlaced(w) && FramesNamed(w) && ReportsNamed(w) && JobsNamed(w) && SocketsNamed(w)
    && OneSender(w) && Mutual(w) && ChannelsHeard(w) && PendingOwned(w) && SendersOut(w)
    && NotedServed(w) && OneNoted(w) && FiledExact(w)
  }

  lemma WInvInit(cfg: Control.Config)
    ensures WInv(Init(cfg))
  {
    InvInit(cfg);
  }

  lemma WInvStep(w: State, a: Action)
    requires WInv(w) && Enabled(w, a)
    ensures WInv(Apply(w, a))
  {
    if CtrlStep(w, a).Some? {
      CtrlStepEnabled(w, a);
      InvStep(w.ctrl, CtrlStep(w, a).value);
    }
    VisitorsPlacedStep(w, a);
    FramesNamedStep(w, a);
    ReportsNamedStep(w, a);
    JobsNamedStep(w, a);
    SocketsNamedStep(w, a);
    OneSenderStep(w, a);
    MutualStep(w, a);
    ChannelsHeardStep(w, a);
    PendingOwnedStep(w, a);
    SendersOutStep(w, a);
    NotedServedStep(w, a);
    FiledExactStep(w, a);
  }

  lemma {:induction false} WInvRun(w: State, run: seq<Action>)
    requires WInv(w) && Valid(w, run)
    ensures WInv(Exec(w, run))
    decreases |run|
  {
    if run != [] {
      WInvStep(w, run[0]);
      WInvRun(Apply(w, run[0]), run[1..]);
    }
  }
}
