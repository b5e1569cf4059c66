/** The edge node's side of the orders: which accept loops it runs (crates/node/src/main.rs). */
module NodeAgent {
  import opened Ports
  import opened Nodes
  import opened Control
  import opened ControlOrders
  import opened ControlInvariant

  /** A spawned accept loop. */
  type Handle = nat

  /** The `tunnels` table of a session, the loops spawned so far (below `next`), those aborted. */
  datatype Agent = Agent(tunnels: map<Tid, Handle>, next: Handle, aborted: set<Handle>)

  const IDLE := Agent(map[], 0, {})

  /** What one order does; `bound` says whether the public port could be bound. */
  function Obey(g: Agent, frame: Frame, bound: bool): Agent {
    match frame
    case Open(t, p) => if bound then Agent(g.tunnels[t := g.next], g.next + 1, g.aborted) else g
    case Close(t) => if t in g.tunnels then Agent(g.tunnels - {t}, g.next, g.aborted + {g.tunnels[t]}) else g
    case Ack => g
  }

  function ObeyAll(frames: seq<Frame>, bound: seq<bool>): Agent
    requires |frames| == |bound|
  {
    if frames == [] then IDLE
    else Obey(ObeyAll(frames[..|frames| - 1], bound[..|bound| - 1]), frames[|frames| - 1], bound[|bound| - 1])
  }

  /** The session's end: every listed loop is aborted. */
  function TornDown(g: Agent): Agent {
    Agent(map[], g.next, g.aborted + g.tunnels.Values)
  }

  predicate Live(g: Agent, h: Handle) {
    h < g.next && h !in g.aborted
  }

  /** Every loop still running can be reached through the table. */
  ghost predicate NoOrphan(g: Agent) {
    forall h | Live(g, h) :: h in g.tunnels.Values
  }

  /** Some order opens, successfully, a tunnel the table still lists. */
  predicate Reopens(frames: seq<Frame>, bound: seq<bool>)
    requires |frames| == |bound|
  {
    frames != [] &&
    (Reopens(frames[..|frames| - 1], bound[..|bound| - 1])
     || (frames[|frames| - 1].Open? && bound[|bound| - 1]
         && frames[|frames| - 1].tid in ObeyAll(frames[..|frames| - 1], bound[..|bound| - 1]).tunnels))
  }

  class NodeSession {
    var tunnels: map<Tid, Handle>
    var next: Handle
    var aborted: set<Handle>

    function View(): Agent
      reads this
    {
      Agent(tunnels, next, aborted)
    }

    constructor ()
      ensures View() == IDLE
    {
      tunnels, next, aborted := map[], 0, {};
    }

    /** Binds the port and spawns the accept loop. */
    method OpenTunnel(t: Tid, port: Port, bound: bool)
      modifies this
      ensures View() == Obey(old(View()), Open(t, port), bound)
    {
      if !bound {
        return;
      }
      var handle := next;
      next := next + 1;
      tunnels := tunnels[t := handle];
    }

    method CloseTunnel(t: Tid)
      modifies this
      ensures View() == Obey(old(View()), Close(t), true)
    {
      if t in tunnels {
        var handle := tunnels[t];
        tunnels := tunnels - {t};
        aborted := aborted + {handle};
      }
    }

    /** Reads and dispatches orders until the control channel closes. */
    method ServeOrders(frames: seq<Frame>, bound: seq<bool>)
      requires |frames| == |bound| && View() == IDLE
      modifies this
      ensures View() == ObeyAll(frames, bound)
    {
      for i := 0 to |frames|
        invariant View() == ObeyAll(frames[..i], bound[..i])
      {
        match frames[i] {
          case Open(t, p) => OpenTunnel(t, p, bound[i]);
          case Close(t) => CloseTunnel(t);
          case Ack =>
        }
        assert frames[..i + 1][..i] == frames[..i] && bound[..i + 1][..i] == bound[..i];
      }
      assert frames[..|frames|] == frames && bound[..|bound|] == bound;
    }

    /** Drains the table, aborting every loop in it. */
    method TearDown()
      modifies this
      ensures View() == TornDown(old(View()))
    {
      while tunnels.Keys != {}
        invariant tunnels.Keys <= old(tunnels).Keys
        invariant forall t | t in tunnels :: tunnels[t] == old(tunnels)[t]
        invariant aborted == old(aborted) + set t | t in old(tunnels) && t !in tunnels :: old(tunnels)[t]
        invariant next == old(next)
        decreases tunnels.Keys
      {
        var t :| t in tunnels.Keys;
        var handle := tunnels[t];
        tunnels := tunnels - {t};
        aborted := aborted + {handle};
      }
      assert old(tunnels).Values == set t | t in old(tunnels) && t !in tunnels :: old(tunnels)[t];
    }

    /** One session: the first frame must be the acknowledgement, or nothing is served. */
    method RunSession(frames: seq<Frame>, bound: seq<bool>)
      requires |frames| == |bound| && View() == IDLE
      modifies this
      ensures View() == if frames != [] && frames[0] == Ack
                        then TornDown(ObeyAll(frames[1..], bound[1..])) else IDLE
    {
      if frames == [] || frames[0] != Ack {
        return;
      }
      ServeOrders(frames[1..], bound[1..]);
      TearDown();
    }
  }

  /** Table and abort list stay apart, and each loop is listed at most once. */
  ghost predicate Tidy(g: Agent) {
    && (forall t | t in g.tunnels :: Live(g, g.tunnels[t]))
    && (forall t, u | t in g.tunnels && u in g.tunnels && t != u :: g.tunnels[t] != g.tunnels[u])
    && (forall h | h in g.aborted :: h < g.next)
  }

  lemma ObeyTidy(g: Agent, frame: Frame, bound: bool)
    requires Tidy(g)
    ensures Tidy(Obey(g, frame, bound))
  {
  }

  /** One order keeps every loop reachable exactly when it does not reopen a listed tunnel;
      and a loop that was lost stays lost. */
  lemma ObeyOrphans(g: Agent, frame: Frame, bound: bool)
    requires Tidy(g)
    ensures NoOrphan(Obey(g, frame, bound)) <==>
            (NoOrphan(g) && !(frame.Open? && bound && frame.tid in g.tunnels))
  {
    var g' := Obey(g, frame, bound);
    if !NoOrphan(g) {
      var h :| Live(g, h) && h !in g.tunnels.Values;
      assert Live(g', h) && h !in g'.tunnels.Values;
    } else if frame.Open? && bound {
      if frame.tid in g.tunnels {
        var h := g.tunnels[frame.tid];
        assert Live(g', h) && h !in g'.tunnels.Values;
      } else {
        forall h | Live(g', h) ensures h in g'.tunnels.Values {
          if h == g.next {
            assert g'.tunnels[frame.tid] == h;
          } else {
            assert Live(g, h);
            var t :| t in g.tunnels && g.tunnels[t] == h;
            assert g'.tunnels[t] == h;
          }
        }
      }
    } else if frame.Close? && frame.closed in g.tunnels {
      forall h | Live(g', h) ensures h in g'.tunnels.Values {
        assert Live(g, h);
        var t :| t in g.tunnels && g.tunnels[t] == h;
        assert g'.tunnels[t] == h;
      }
    }
  }

  /**
   No orphan, exactly when no order reopens. After any orders and any bind results, every
   running accept loop is in the table if and only if no tunnel was opened while listed.
   */
  lemma {:induction false} NoOrphanIff(frames: seq<Frame>, bound: seq<bool>)
    requires |frames| == |bound|
    ensures Tidy(ObeyAll(frames, bound))
    ensures NoOrphan(ObeyAll(frames, bound)) <==> !Reopens(frames, bound)
    decreases |frames|
  {
    if frames != [] {
      var before, bbefore := frames[..|frames| - 1], bound[..|bound| - 1];
      NoOrphanIff(before, bbefore);
      ObeyTidy(ObeyAll(before, bbefore), frames[|frames| - 1], bound[|bound| - 1]);
      ObeyOrphans(ObeyAll(before, bbefore), frames[|frames| - 1], bound[|bound| - 1]);
    }
  }

  /** The end of a session stops every loop exactly when none had been lost. */
  lemma TearDownStopsAll(frames: seq<Frame>, bound: seq<bool>)
    requires |frames| == |bound|
    ensures (forall h :: !Live(TornDown(ObeyAll(frames, bound)), h)) <==> !Reopens(frames, bound)
  {
    NoOrphanIff(frames, bound);
    var g := ObeyAll(frames, bound);
    if NoOrphan(g) {
      forall h ensures !Live(TornDown(g), h) {
        assert Live(g, h) ==> h in g.tunnels.Values;
      }
    } else {
      var h :| Live(g, h) && h !in g.tunnels.Values;
      assert Live(TornDown(g), h);
    }
  }

  /** In a safe stream the table only lists tunnels that are open in the stream. */
  lemma {:induction false} SafeNeverReopens(frames: seq<Frame>, bound: seq<bool>)
    requires |frames| == |bound| && Safe(frames)
    ensures !Reopens(frames, bound)
    ensures forall t | t in ObeyAll(frames, bound).tunnels :: t in OpenMap(frames)
    decreases |frames|
  {
    if frames != [] {
      SafeNeverReopens(frames[..|frames| - 1], bound[..|bound| - 1]);
      OpenIsEver(frames[..|frames| - 1]);
    }
  }

  /** A stream stays safe when its acknowledgement is taken off its head. */
  lemma {:induction false} SafeTail(frames: seq<Frame>)
    requires Safe(frames) && frames != [] && frames[0] == Ack
    ensures Safe(frames[1..]) && OpenMap(frames[1..]) == OpenMap(frames) && Ever(frames[1..]) == Ever(frames)
    decreases |frames|
  {
    if |frames| > 1 {
      var before := frames[..|frames| - 1];
      SafeTail(before);
      assert frames[1..][..|frames| - 2] == before[1..];
    }
  }

  /**
   Whatever the server writes to a node, however much of it the node reads and whichever
   binds succeed: while the session lasts every running accept loop is in the table, for a
   tunnel that is open in the stream, and when it ends all of them have been aborted.
   */
  lemma NodeKeepsNoOrphan(cfg: Config, run: seq<Action>, s: State, n: Nid, i: nat, bound: seq<bool>)
    requires Reached(cfg, run, s) && n in s.chans && 0 < i <= |s.chans[n].frames| && |bound| == i - 1
    requires s.chans[n].frames[0] == Ack
    ensures var g := ObeyAll(s.chans[n].frames[1..i], bound);
            && NoOrphan(g)
            && (forall t | t in g.tunnels :: t in OpenMap(s.chans[n].frames[..i]))
            && (forall h :: !Live(TornDown(g), h))
  {
    ReachedInv(cfg, run, s);
    var frames := s.chans[n].frames;
    assert StreamExact(s, n);
    SafePrefix(frames, i);
    SafeTail(frames[..i]);
    assert frames[..i][1..] == frames[1..i];
    SafeNeverReopens(frames[1..i], bound);
    NoOrphanIff(frames[1..i], bound);
    TearDownStopsAll(frames[1..i], bound);
  }
}
