/** The stream of orders written to one node: what it says in every prefix. */
module ControlOrders {
  import opened Wrappers
  import opened Ports
  import opened Nodes
  import opened Control
  import opened ControlShape

  /** The tunnels opened and not yet closed, with their ports. */
  function OpenMap(frames: seq<Frame>): map<Tid, Port> {
    if frames == [] then map[]
    else Heard(OpenMap(frames[..|frames| - 1]), frames[|frames| - 1])
  }

  function Heard(open: map<Tid, Port>, frame: Frame): map<Tid, Port> {
    if frame.Open? then open[frame.tid := frame.port]
    else if frame.Close? then open - {frame.closed}
    else open
  }

  /** Every tunnel ever opened. */
  function Ever(frames: seq<Frame>): set<Tid> {
    if frames == [] then {} else
    Ever(frames[..|frames| - 1])
    + if frames[|frames| - 1].Open? then {frames[|frames| - 1].tid} else {}
  }

  /** `frame` may follow `before`: no tunnel twice, no port twice at once, no close without an open. */
  predicate MayFollow(before: seq<Frame>, frame: Frame) {
    match frame
    case Open(t, p) => t !in Ever(before) && forall u | u in OpenMap(before) :: OpenMap(before)[u] != p
    case Close(t) => t in OpenMap(before)
    case Ack => true
  }

  predicate Safe(frames: seq<Frame>) {
    frames == [] || (Safe(frames[..|frames| - 1]) && MayFollow(frames[..|frames| - 1], frames[|frames| - 1]))
  }

  lemma Append(frames: seq<Frame>, f: Frame)
    ensures OpenMap(frames + [f]) == Heard(OpenMap(frames), f)
    ensures Ever(frames + [f]) == Ever(frames) + if f.Open? then {f.tid} else {}
    ensures Safe(frames + [f]) <==> Safe(frames) && MayFollow(frames, f)
  {
    assert (frames + [f])[..|frames|] == frames;
  }

  // ---- What a safe stream means, frame by frame ----

  lemma {:induction false} EverAt(frames: seq<Frame>, t: Tid)
    ensures t in Ever(frames) <==> exists i | 0 <= i < |frames| :: frames[i].Open? && frames[i].tid == t
    decreases |frames|
  {
    if frames != [] {
      var before := frames[..|frames| - 1];
      EverAt(before, t);
      assert forall i | 0 <= i < |before| :: before[i] == frames[i];
    }
  }

  lemma {:induction false} OpenIsEver(frames: seq<Frame>)
    ensures forall t | t in OpenMap(frames) :: t in Ever(frames)
    decreases |frames|
  {
    if frames != [] {
      OpenIsEver(frames[..|frames| - 1]);
    }
  }

  lemma {:induction false} SafePrefix(frames: seq<Frame>, i: nat)
    requires Safe(frames) && i <= |frames|
    ensures Safe(frames[..i])
    decreases |frames|
  {
    if i == |frames| {
      assert frames[..i] == frames;
    } else {
      assert frames[..|frames| - 1][..i] == frames[..i];
      SafePrefix(frames[..|frames| - 1], i);
    }
  }

  /** In a safe stream the open tunnels always sit on distinct ports. */
  lemma {:induction false} SafeDistinct(frames: seq<Frame>, t: Tid, u: Tid)
    requires Safe(frames) && t in OpenMap(frames) && u in OpenMap(frames) && t != u
    ensures OpenMap(frames)[t] != OpenMap(frames)[u]
    decreases |frames|
  {
    var before := frames[..|frames| - 1];
    var last := frames[|frames| - 1];
    if t in OpenMap(before) && u in OpenMap(before) {
      SafeDistinct(before, t, u);
    }
  }

  /** A closed tunnel never comes back: it was opened before, is gone after, and is never reopened. */
  lemma {:induction false} ClosedStaysClosed(frames: seq<Frame>, k: nat, t: Tid)
    requires Safe(frames) && k < |frames| && frames[k] == Close(t)
    ensures t in Ever(frames) && t !in OpenMap(frames)
    decreases |frames|
  {
    var before := frames[..|frames| - 1];
    if k == |frames| - 1 {
      OpenIsEver(before);
    } else {
      ClosedStaysClosed(before, k, t);
    }
  }

  lemma OpensOnce(frames: seq<Frame>, i: nat, j: nat)
    requires Safe(frames) && i < j < |frames| && frames[i].Open? && frames[j].Open?
    ensures frames[i].tid != frames[j].tid
  {
    SafePrefix(frames, j + 1);
    assert frames[..j + 1][..j] == frames[..j];
    EverAt(frames[..j], frames[j].tid);
    assert frames[..j][i] == frames[i];
  }

  /** Each close matches exactly one earlier open, and no other close. */
  lemma ClosesMatch(frames: seq<Frame>, k: nat, t: Tid)
    requires Safe(frames) && k < |frames| && frames[k] == Close(t)
    ensures exists i | 0 <= i < k :: frames[i].Open? && frames[i].tid == t
    ensures forall i, j | 0 <= i < j < |frames| ::
              !(frames[i].Open? && frames[j].Open? && frames[i].tid == t == frames[j].tid)
    ensures forall j | 0 <= j < |frames| && j != k :: frames[j] != Close(t)
  {
    var prefix := frames[..k];
    SafePrefix(frames, k + 1);
    assert frames[..k + 1][..k] == prefix;
    OpenIsEver(prefix);
    EverAt(prefix, t);
    forall i, j | 0 <= i < j < |frames|
      ensures !(frames[i].Open? && frames[j].Open? && frames[i].tid == t == frames[j].tid)
    {
      if frames[i].Open? && frames[j].Open? {
        OpensOnce(frames, i, j);
      }
    }
    forall j | 0 <= j < |frames| && j != k ensures frames[j] != Close(t) {
      if frames[j] == Close(t) {
        var hi, lo := if j < k then k else j, if j < k then j else k;
        SafePrefix(frames, hi + 1);
        assert frames[..hi + 1][..hi] == frames[..hi];
        SafePrefix(frames, hi);
        ClosedStaysClosed(frames[..hi], lo, t);
      }
    }
  }

  // ---- The invariant ----

  /** The session's order to open is out and its order to close is not. */
  predicate OrderOpen(pc: Pc) {
    pc.OpenSent? || pc.InsertedVia? || pc.CountedVia? || pc.AnnouncedVia? || pc.ServingVia? || pc.LeavingVia?
  }

  predicate BeforeOrder(pc: Pc) {
    pc.Start? || pc.Authorized? || pc.Known? || pc.Rejected? || pc.Holding? || pc.Picked?
  }

  ghost predicate OnNode(s: State, t: Tid, n: Nid) {
    t in s.sessions && s.sessions[t].node.Some? && s.sessions[t].node.value.nid == n
  }

  ghost predicate OrderOpenAt(s: State, t: Tid, n: Nid) {
    OnNode(s, t, n) && OrderOpen(s.sessions[t].pc)
  }

  ghost predicate Ordered(s: State, t: Tid, n: Nid, p: Port) {
    OnNode(s, t, n) && !BeforeOrder(s.sessions[t].pc) && s.sessions[t].port == p
  }

  /** Every tunnel a node was ever told about is a session that chose this node and holds this port. */
  ghost predicate FramesOwned(s: State, n: Nid, frames: seq<Frame>) {
    forall i | 0 <= i < |frames| && frames[i].Open? ::
      Ordered(s, frames[i].tid, n, frames[i].port)
  }

  ghost predicate StreamExact(s: State, n: Nid)
    requires n in s.chans
  {
    var frames := s.chans[n].frames;
    && Safe(frames)
    && FramesOwned(s, n, frames)
    && (s.chans[n].up ==>
          forall t: Tid :: (t in OpenMap(frames) <==> OrderOpenAt(s, t, n))
                           && (t in OpenMap(frames) ==> OpenMap(frames)[t] == s.sessions[t].port))
  }

  ghost predicate OrdersExact(s: State) {
    forall n | n in s.chans :: StreamExact(s, n)
  }

  /** Outside the two order steps a session keeps its place with respect to its order. */
  lemma OrderPhase(s: State, a: Action)
    requires Enabled(s, a) && Actor(a).Some?
    ensures var t := Actor(a).value; var c := SessionAfter(s, a);
            && (!a.SendOpen? && !a.SendClose? ==> (OrderOpen(c.pc) <==> t in s.sessions && OrderOpen(s.sessions[t].pc)))
            && (a.SendOpen? && a.sent.Delivered? ==> OrderOpen(c.pc))
            && (a.SendOpen? && !a.sent.Delivered? ==> !OrderOpen(c.pc))
            && (a.SendClose? ==> OrderOpen(s.sessions[t].pc) && !OrderOpen(c.pc))
  {
  }

  /** Once past the order, the node and the port of a session are settled. */
  lemma OrderSettled(s: State, a: Action)
    requires Enabled(s, a) && Actor(a).Some? && Actor(a).value in s.sessions
    ensures var c := s.sessions[Actor(a).value]; var c' := SessionAfter(s, a);
            && (!BeforeOrder(c.pc) ==> !BeforeOrder(c'.pc) && c'.node == c.node && c'.port == c.port)
            && (OrderOpen(c.pc) ==> c'.node == c.node && c'.port == c.port)
            && (a.SendOpen? || a.SendClose? ==> c'.node == c.node && c'.port == c.port && !BeforeOrder(c'.pc))
  {
  }

  lemma OrderedKept(s: State, a: Action, t: Tid, n: Nid, p: Port)
    requires Enabled(s, a) && Ordered(s, t, n, p)
    ensures Ordered(Apply(s, a), t, n, p)
  {
    if Actor(a) == Some(t) {
      OrderSettled(s, a);
    }
  }

  lemma OwnedKept(s: State, a: Action, n: Nid, frames: seq<Frame>)
    requires Enabled(s, a) && FramesOwned(s, n, frames)
    ensures FramesOwned(Apply(s, a), n, frames)
  {
    forall i | 0 <= i < |frames| && frames[i].Open?
      ensures Ordered(Apply(s, a), frames[i].tid, n, frames[i].port)
    {
      OrderedKept(s, a, frames[i].tid, n, frames[i].port);
    }
  }

  lemma OpenAtKept(s: State, a: Action, t: Tid, n: Nid)
    requires Enabled(s, a) && !(a.SendOpen? && a.t == t) && !(a.SendClose? && a.t == t)
    ensures OrderOpenAt(Apply(s, a), t, n) <==> OrderOpenAt(s, t, n)
    ensures OrderOpenAt(s, t, n) ==> Apply(s, a).sessions[t].port == s.sessions[t].port
  {
    if Actor(a) == Some(t) {
      OrderPhase(s, a);
      if t in s.sessions {
        OrderSettled(s, a);
      }
    }
  }

  /** The streams a step does not write to. */
  lemma OtherStream(s: State, a: Action, n: Nid)
    requires n in s.chans && StreamExact(s, n) && Enabled(s, a)
    requires n in Apply(s, a).chans && Apply(s, a).chans[n].frames == s.chans[n].frames
    requires Apply(s, a).chans[n].up ==> s.chans[n].up
    requires a.SendOpen? || a.SendClose? ==> !OnNode(s, a.t, n)
    ensures StreamExact(Apply(s, a), n)
  {
    var s' := Apply(s, a);
    var frames := s.chans[n].frames;
    OwnedKept(s, a, n, frames);
    if s'.chans[n].up {
      forall t: Tid
        ensures t in OpenMap(frames) <==> OrderOpenAt(s', t, n)
        ensures t in OpenMap(frames) ==> OpenMap(frames)[t] == s'.sessions[t].port
      {
        if (a.SendOpen? || a.SendClose?) && a.t == t {
          OrderSettled(s, a);
        } else {
          OpenAtKept(s, a, t, n);
        }
      }
    }
  }

  lemma OpenStream(s: State, a: Action, n: Nid)
    requires PoolExact(s) && Enabled(s, a) && a.SendOpen?
    requires n in s.chans && OnNode(s, a.t, n) && StreamExact(s, n)
    ensures StreamExact(Apply(s, a), n)
  {
    var s' := Apply(s, a);
    var frames := s.chans[n].frames;
    var frame := Open(a.t, s.sessions[a.t].port);
    OrderSettled(s, a);
    OrderPhase(s, a);
    OwnedKept(s, a, n, frames);
    if !a.sent.FailedLost? {
      Append(frames, frame);
      EverAt(frames, a.t);
      forall u | u in OpenMap(frames) ensures OpenMap(frames)[u] != frame.port {
        assert OrderOpenAt(s, u, n);
        assert HoldsAt(s, u) && HoldsAt(s, a.t) && u != a.t;
      }
      assert FramesOwned(s', n, frames + [frame]);
    }
    if s'.chans[n].up {
      forall t: Tid | t != a.t ensures OrderOpenAt(s', t, n) <==> OrderOpenAt(s, t, n) {
        OpenAtKept(s, a, t, n);
      }
    }
  }

  lemma CloseStream(s: State, a: Action, n: Nid)
    requires Enabled(s, a) && a.SendClose?
    requires n in s.chans && OnNode(s, a.t, n) && StreamExact(s, n)
    ensures StreamExact(Apply(s, a), n)
  {
    var s' := Apply(s, a);
    var frames := s.chans[n].frames;
    OrderSettled(s, a);
    OrderPhase(s, a);
    OwnedKept(s, a, n, frames);
    if !a.sent.FailedLost? {
      assert OrderOpenAt(s, a.t, n);
      Append(frames, Close(a.t));
      assert FramesOwned(s', n, frames + [Close(a.t)]);
    }
    if s'.chans[n].up {
      forall t: Tid | t != a.t ensures OrderOpenAt(s', t, n) <==> OrderOpenAt(s, t, n) {
        OpenAtKept(s, a, t, n);
      }
    }
  }

  lemma AckStream(s: State, a: Action)
    requires Enabled(s, a) && a.AckNode? && StreamExact(s, a.n)
    ensures StreamExact(Apply(s, a), a.n)
  {
    var s' := Apply(s, a);
    var frames := s.chans[a.n].frames;
    OwnedKept(s, a, a.n, frames);
    Append(frames, Ack);
    assert FramesOwned(s', a.n, frames + [Ack]);
    forall t: Tid ensures OrderOpenAt(s', t, a.n) <==> OrderOpenAt(s, t, a.n) {
      OpenAtKept(s, a, t, a.n);
    }
  }

  /** A node that has just joined has been told nothing, and no session can have chosen it yet. */
  lemma FreshStream(s: State, a: Action)
    requires Shape(s) && Enabled(s, a) && a.Join?
    ensures StreamExact(Apply(s, a), a.n)
  {
    var s' := Apply(s, a);
    forall t: Tid ensures !OrderOpenAt(s', t, a.n) {
      assert t in s.sessions ==> SessionOk(s, t, s.sessions[t]);
    }
  }

  lemma OrdersStep(s: State, a: Action)
    requires Shape(s) && PoolExact(s) && OrdersExact(s) && Enabled(s, a)
    ensures OrdersExact(Apply(s, a))
  {
    var s' := Apply(s, a);
    forall n | n in s'.chans ensures StreamExact(s', n) {
      if a.SendOpen? && OnNode(s, a.t, n) {
        OpenStream(s, a, n);
      } else if a.SendClose? && OnNode(s, a.t, n) {
        CloseStream(s, a, n);
      } else if a.AckNode? && a.n == n {
        AckStream(s, a);
      } else if n !in s.chans {
        FreshStream(s, a);
      } else {
        OtherStream(s, a, n);
      }
    }
  }
}
