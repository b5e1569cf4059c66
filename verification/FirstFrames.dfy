/**
 Both peers of the server take the first frame they read as the verdict on their
 registration and give up on anything else (crates/node/src/main.rs, crates/cli/src/tunnel.rs).
 The server does not always write that verdict first. Here is exactly when it does.
 */
module FirstFrames {
  import opened Wrappers
  import opened Ports
  import opened Nodes
  import Control
  import opened ControlShape
  import opened ControlOrders
  import opened ControlInvariant
  import World
  import opened WorldInvariant
  import opened WorldTheorems

  // ---- The node's stream: the acknowledgement, then orders ----

  predicate AckLeads(frames: seq<Control.Frame>) {
    frames == [] || frames[0] == Control.Ack
  }

  ghost predicate AckLeadsAt(s: Control.State, n: Nid) {
    n in s.chans ==> AckLeads(s.chans[n].frames)
  }

  /** An order reaches the node between its entry into the registry and its acknowledgement. */
  ghost predicate Rushes(s: Control.State, a: Control.Action, n: Nid) {
    && a.SendOpen? && !a.sent.FailedLost?
    && OnNode(s, a.t, n)
    && Control.NodeAt(s, n, Control.Joined)
  }

  ghost predicate Rushed(s: Control.State, run: seq<Control.Action>, n: Nid)
    requires Control.Valid(s, run)
    decreases |run|
  {
    run != [] && (Rushes(s, run[0], n) || Rushed(Control.Apply(s, run[0]), run[1..], n))
  }

  ghost predicate Acking(s: Control.State, n: Nid) {
    n in s.chans ==>
      var c := s.chans[n];
      && (c.pc == Control.Joined && AckLeads(c.frames) ==> c.frames == [])
      && (c.pc != Control.Joined ==> c.frames != [] || !c.up)
  }

  /** A tunnel can only be closed on a node that has been told something before. */
  lemma CloseNotFirst(s: Control.State, a: Control.Action, n: Nid)
    requires Control.Enabled(s, a) && a.SendClose? && !a.sent.FailedLost?
    requires OnNode(s, a.t, n) && n in s.chans && StreamExact(s, n)
    ensures s.chans[n].frames != []
  {
    assert OrderOpenAt(s, a.t, n);
  }

  lemma AckStep(s: Control.State, a: Control.Action, n: Nid)
    requires n in s.chans ==> StreamExact(s, n)
    requires Control.Enabled(s, a) && Acking(s, n)
    ensures Acking(Control.Apply(s, a), n)
    ensures AckLeadsAt(Control.Apply(s, a), n) <==> (AckLeadsAt(s, n) && !Rushes(s, a, n))
  {
    if a.SendClose? && !a.sent.FailedLost? && OnNode(s, a.t, n) && n in s.chans {
      CloseNotFirst(s, a, n);
    }
  }

  lemma {:induction false} AckRun(s: Control.State, run: seq<Control.Action>, n: Nid)
    requires Inv(s) && Control.Valid(s, run) && Acking(s, n)
    ensures AckLeadsAt(Control.Exec(s, run), n) <==> (AckLeadsAt(s, n) && !Rushed(s, run, n))
    decreases |run|
  {
    if run != [] {
      AckStep(s, run[0], n);
      InvStep(s, run[0]);
      AckRun(Control.Apply(s, run[0]), run[1..], n);
    }
  }

  /**
   What a node reads first is its acknowledgement (or nothing at all) exactly when no
   session wrote an order to it while it was registered but not yet acknowledged.
   */
  lemma AckFirstIff(cfg: Control.Config, run: seq<Control.Action>, s: Control.State, n: Nid)
    requires Reached(cfg, run, s) && n in s.chans
    ensures AckLeads(s.chans[n].frames) <==> !Rushed(Control.Init(cfg), run, n)
  {
    InvInit(cfg);
    AckRun(Control.Init(cfg), run, n);
  }

  const SAMPLE := Control.Register("key", Control.Tcp, 80, Some(9000), None, None)
  const SERVER := Control.Config(Range(9000, 9000), ["key"])

  /** Extends a run from the start by one step. */
  lemma Then(cfg: Control.Config, run: seq<Control.Action>, s: Control.State, a: Control.Action)
    returns (run': seq<Control.Action>, s': Control.State)
    requires Reached(cfg, run, s) && Control.Enabled(s, a)
    ensures Reached(cfg, run', s') && s' == Control.Apply(s, a)
    ensures Silent(run) && Silent([a]) ==> Silent(run')
  {
    ReachedStep(cfg, run, s, a);
    run', s' := run + [a], Control.Apply(s, a);
  }

  const EDGE := Control.Chan("edge", "10.0.0.1", 7001, [], true, Control.Joined)

  /** One node is registered, whose stream is `chan`, and nothing else has happened. */
  ghost predicate OneNode(run: seq<Control.Action>, s: Control.State, chan: Control.Chan) {
    && Reached(SERVER, run, s) && Silent(run)
    && s.cfg == SERVER && s.available == All(SERVER.range) && s.sessions == map[]
    && s.nodes == map[0 := NodeInfo("edge", "10.0.0.1", 7001, 0)]
    && s.chans == map[0 := chan]
  }

  /** A node joins, not yet acknowledged. */
  lemma NodeJoined() returns (run: seq<Control.Action>, s: Control.State)
    ensures OneNode(run, s, EDGE)
  {
    run, s := [], Control.Init(SERVER);
    run, s := Then(SERVER, run, s, Control.Join(0, "edge", "10.0.0.1", 7001));
  }

  /** The same node acknowledged. */
  lemma NodeAcked() returns (run: seq<Control.Action>, s: Control.State)
    ensures OneNode(run, s, EDGE.(frames := [Control.Ack], pc := Control.Acked))
  {
    run, s := NodeJoined();
    run, s := Then(SERVER, run, s, Control.AckNode(0, Control.Delivered));
    assert EDGE.frames + [Control.Ack] == [Control.Ack];
  }

  /** The same node served: its reports are read. */
  lemma NodeServed() returns (run: seq<Control.Action>, s: Control.State)
    ensures OneNode(run, s, EDGE.(frames := [Control.Ack], pc := Control.Serving))
  {
    run, s := NodeAcked();
    run, s := Then(SERVER, run, s, Control.AnnounceNode(0));
  }

  /** A CLI gets as far as its port. */
  lemma PortAssigned(run0: seq<Control.Action>, s0: Control.State, chan: Control.Chan)
    returns (run: seq<Control.Action>, s: Control.State)
    requires OneNode(run0, s0, chan)
    ensures Reached(SERVER, run, s) && Silent(run)
    ensures 0 in s.sessions && s.sessions[0] == Control.Session(SAMPLE, Control.Holding, 9000, None, false, 0, None)
    ensures s.nodes == s0.nodes && s.chans == s0.chans
  {
    run, s := Connected(run0, s0);
    run, s := Admitted(run, s);
    run, s := Then(SERVER, run, s, Control.Acquire(0, Some(9000)));
  }

  lemma Connected(run0: seq<Control.Action>, s0: Control.State) returns (run: seq<Control.Action>, s: Control.State)
    requires Reached(SERVER, run0, s0) && Silent(run0) && 0 !in s0.sessions
    ensures Reached(SERVER, run, s) && Silent(run)
    ensures 0 in s.sessions && s.sessions[0] == Control.Session(SAMPLE, Control.Start, 0, None, false, 0, None)
    ensures s.cfg == s0.cfg && s.nodes == s0.nodes && s.chans == s0.chans && s.available == s0.available
  {
    run, s := Then(SERVER, run0, s0, Control.Connect(0, SAMPLE));
  }

  /** A CLI is admitted. */
  lemma Admitted(run0: seq<Control.Action>, s0: Control.State) returns (run: seq<Control.Action>, s: Control.State)
    requires Reached(SERVER, run0, s0) && Silent(run0) && s0.cfg == SERVER && 0 in s0.sessions
    requires s0.sessions[0] == Control.Session(SAMPLE, Control.Start, 0, None, false, 0, None)
    ensures Reached(SERVER, run, s) && Silent(run)
    ensures 0 in s.sessions && s.sessions[0] == Control.Session(SAMPLE, Control.Known, 0, None, false, 0, None)
    ensures s.cfg == s0.cfg && s.nodes == s0.nodes && s.chans == s0.chans && s.available == s0.available
  {
    run, s := Then(SERVER, run0, s0, Control.Auth(0));
    run, s := Then(SERVER, run, s, Control.Upsert(0, 0, 0));
  }

  /** The session picks the node. */
  lemma NodePicked(run0: seq<Control.Action>, s0: Control.State, chan: Control.Chan)
    returns (run: seq<Control.Action>, s: Control.State)
    requires OneNode(run0, s0, chan)
    ensures Reached(SERVER, run, s) && Silent(run)
    ensures 0 in s.sessions && s.sessions[0] == Control.Session(
      SAMPLE, Control.Picked, 9000, Some(Control.NodeRef(0, "edge", "10.0.0.1", 7001)), false, 0, None)
    ensures s.chans == map[0 := chan]
  {
    run, s := PortAssigned(run0, s0, chan);
    run, s := Then(SERVER, run, s, Control.Pick(0, Some(0)));
  }

  /** The order is written, whether or not the node has been acknowledged. */
  lemma Ordered(run0: seq<Control.Action>, s0: Control.State, chan: Control.Chan)
    returns (run: seq<Control.Action>, s: Control.State)
    requires OneNode(run0, s0, chan) && chan.up
    ensures Reached(SERVER, run, s) && Silent(run)
    ensures s.chans == map[0 := chan.(frames := chan.frames + [Control.Open(0, 9000)])]
    ensures Control.At(s, 0, Control.OpenSent) && s.sessions[0].via
    ensures s.sessions[0].node == Some(Control.NodeRef(0, "edge", "10.0.0.1", 7001))
  {
    run, s := NodePicked(run0, s0, chan);
    run, s := Then(SERVER, run, s, Control.SendOpen(0, Control.Delivered));
  }

  /** So the acknowledgement is not always what the node reads first. */
  lemma AckNotFirst()
    ensures exists run, s :: Reached(SERVER, run, s) && 0 in s.chans && !AckLeads(s.chans[0].frames)
  {
    var run, s := NodeJoined();
    run, s := Ordered(run, s, EDGE);
    assert s.chans[0].frames == [Control.Open(0, 9000)];
  }

  // ---- The CLI's stream: the verdict, then visitors ----

  predicate VerdictLeads(frames: seq<World.CliFrame>) {
    frames == [] || frames[0] == World.Registered
  }

  /** Listed through a node, `Registered` not yet written. */
  predicate Unanswered(pc: Control.Pc) {
    pc.InsertedVia? || pc.CountedVia? || pc.AnnouncedVia?
  }

  /** A node's visitor is forwarded to a CLI that has not been answered yet. */
  ghost predicate Overtakes(w: World.State, a: World.Action, t: World.Tid) {
    && a.Relay? && !a.sent.FailedLost?
    && a.n in w.jobs && w.jobs[a.n].cli == t
    && t in w.ctrl.sessions && Unanswered(w.ctrl.sessions[t].pc)
  }

  ghost predicate Overtaken(w: World.State, run: seq<World.Action>, t: World.Tid)
    requires World.Valid(w, run)
    decreases |run|
  {
    run != [] && (Overtakes(w, run[0], t) || Overtaken(World.Apply(w, run[0]), run[1..], t))
  }

  /** Nothing has been written that could follow a verdict. */
  predicate Early(c: Control.Session) {
    Unanswered(c.pc) || c.pc.OpenSent?
    || c.pc.Start? || c.pc.Authorized? || c.pc.Known? || c.pc.Rejected? || c.pc.Holding? || c.pc.Picked?
    || c.pc.DirectStart? || c.pc.Bound?
  }

  predicate Answered(c: Control.Session) {
    c.pc.AckedDirect? || c.pc.InsertedDirect? || c.pc.ServingDirect? || (c.via && !Early(c))
  }

  ghost predicate Answering(w: World.State, t: World.Tid) {
    && (t !in w.ctrl.sessions ==> World.FramesTo(w, t) == [])
    && (t in w.ctrl.sessions ==>
          var c := w.ctrl.sessions[t];
          && (Early(c) && VerdictLeads(World.FramesTo(w, t)) ==> World.FramesTo(w, t) == [])
          && (Answered(c) ==> World.FramesTo(w, t) != [] || t in w.cliDown))
  }

  /** Routes only lead to sessions that are, or were, listed through a node. */
  ghost predicate JobsVia(w: World.State) {
    forall n | n in w.jobs :: WentVia(w.ctrl, w.jobs[n].cli)
  }

  lemma ViaKept(s: Control.State, x: Control.Action)
    requires Control.Enabled(s, x) && Control.Actor(x).Some? && !x.Connect?
    requires SessionOk(s, x.t, s.sessions[x.t]) && s.sessions[x.t].via
    ensures var c := Control.SessionAfter(s, x); c.via && !c.pc.OpenSent?
  {
  }

  /** A session listed through a node, now or once. */
  ghost predicate WentVia(s: Control.State, t: World.Tid) {
    t in s.sessions && s.sessions[t].via && !s.sessions[t].pc.OpenSent?
  }

  lemma WentViaKept(w: World.State, a: World.Action, t: World.Tid)
    requires Shape(w.ctrl) && World.Enabled(w, a) && WentVia(w.ctrl, t)
    ensures WentVia(World.CtrlAfter(w, a), t)
  {
    if World.CtrlStep(w, a).Some? {
      World.CtrlStepEnabled(w, a);
      var x := World.CtrlStep(w, a).value;
      if Control.Actor(x) == Some(t) {
        assert SessionOk(w.ctrl, t, w.ctrl.sessions[t]);
        ViaKept(w.ctrl, x);
      }
    }
  }

  lemma JobsViaStep(w: World.State, a: World.Action)
    requires Shape(w.ctrl) && JobsVia(w) && World.Enabled(w, a)
    ensures JobsVia(World.Apply(w, a))
  {
    forall t | WentVia(w.ctrl, t) ensures WentVia(World.CtrlAfter(w, a), t) {
      WentViaKept(w, a, t);
    }
    if a.LookUp? {
      var r := World.ReportsOf(w, a.n)[World.ReadOf(w, a.n)];
      if r.tid in w.ctrl.active {
        assert ListedAt(w.ctrl, r.tid);
        assert w.ctrl.active[r.tid] == Control.EntryOf(r.tid, w.ctrl.sessions[r.tid]);
      }
    }
  }

  // A session passes from early to answered only by the write of its verdict.

  lemma EarlyBefore(s: Control.State, x: Control.Action)
    requires Control.Enabled(s, x) && Control.Actor(x).Some? && !x.Connect? && Early(Control.SessionAfter(s, x))
    ensures Early(s.sessions[x.t])
  {
  }

  lemma AnsweredBy(s: Control.State, x: Control.Action)
    requires Control.Enabled(s, x) && Control.Actor(x).Some? && !x.Connect?
    requires SessionOk(s, x.t, s.sessions[x.t]) && Answered(Control.SessionAfter(s, x))
    ensures Answered(s.sessions[x.t]) || x.AckVia? || (x.AckDirect? && x.sent.Delivered?)
  {
  }

  lemma AnswerIsEarly(s: Control.State, x: Control.Action)
    requires Control.Enabled(s, x) && (x.AckVia? || x.AckDirect?)
    ensures Early(s.sessions[x.t]) && !Early(Control.SessionAfter(s, x))
  {
  }

  /** The acting session: early or answered afterwards means so before, up to the verdict itself. */
  lemma AnsweringActor(s: Control.State, x: Control.Action)
    requires Control.Enabled(s, x) && Control.Actor(x).Some? && !x.Connect? && SessionOk(s, x.t, s.sessions[x.t])
    ensures var c := s.sessions[x.t]; var c' := Control.SessionAfter(s, x);
            && (Early(c') ==> Early(c) && !x.AckVia? && !x.AckDirect?)
            && (Answered(c') ==> Answered(c) || x.AckVia? || (x.AckDirect? && x.sent.Delivered?))
            && (x.AckVia? || x.AckDirect? ==> Early(c))
  {
    if Early(Control.SessionAfter(s, x)) {
      EarlyBefore(s, x);
    }
    if Answered(Control.SessionAfter(s, x)) {
      AnsweredBy(s, x);
    }
    if x.AckVia? || x.AckDirect? {
      AnswerIsEarly(s, x);
    }
  }

  lemma VerdictStep(w: World.State, a: World.Action, t: World.Tid)
    requires Shape(w.ctrl) && JobsVia(w) && World.Enabled(w, a) && Answering(w, t)
    ensures Answering(World.Apply(w, a), t)
    ensures VerdictLeads(World.FramesTo(World.Apply(w, a), t)) <==>
            (VerdictLeads(World.FramesTo(w, t)) && !Overtakes(w, a, t))
  {
    WrittenTo(w, a, t);
    if World.CtrlStep(w, a).Some? {
      World.CtrlStepEnabled(w, a);
      var x := World.CtrlStep(w, a).value;
      if Control.Actor(x) == Some(t) && !x.Connect? {
        assert SessionOk(w.ctrl, t, w.ctrl.sessions[t]);
        AnsweringActor(w.ctrl, x);
      }
    }
  }

  /** What a step adds to one CLI's stream. */
  lemma WrittenTo(w: World.State, a: World.Action, t: World.Tid)
    requires World.Enabled(w, a)
    ensures var x := World.Written(w, a);
            World.FramesTo(World.Apply(w, a), t) ==
            World.FramesTo(w, t) + if x.Some? && x.value.0 == t then [x.value.1] else []
  {
    StreamOf(w.cliFrames, World.CliFramesAfter(w, a), World.Written(w, a), t);
  }

  /** One frame more on one stream, or none. */
  lemma StreamOf(streams: map<World.Tid, seq<World.CliFrame>>, after: map<World.Tid, seq<World.CliFrame>>,
                 x: Option<(World.Tid, World.CliFrame)>, t: World.Tid)
    requires after == if x.None? then streams
                      else var u := x.value.0;
                           streams[u := (if u in streams then streams[u] else []) + [x.value.1]]
    ensures (if t in after then after[t] else [])
            == (if t in streams then streams[t] else []) + if x.Some? && x.value.0 == t then [x.value.1] else []
  {
    assert (if t in streams then streams[t] else []) + [] == if t in streams then streams[t] else [];
  }

  lemma {:induction false} VerdictRun(w: World.State, run: seq<World.Action>, t: World.Tid)
    requires WInv(w) && JobsVia(w) && World.Valid(w, run) && Answering(w, t)
    ensures VerdictLeads(World.FramesTo(World.Exec(w, run), t)) <==>
            (VerdictLeads(World.FramesTo(w, t)) && !Overtaken(w, run, t))
    decreases |run|
  {
    if run != [] {
      VerdictStep(w, run[0], t);
      JobsViaStep(w, run[0]);
      WInvStep(w, run[0]);
      VerdictRun(World.Apply(w, run[0]), run[1..], t);
    }
  }

  /**
   What a CLI reads first is the verdict on its registration exactly when no visitor was
   forwarded to it between its entry into the tunnel table and that verdict.
   */
  lemma VerdictFirstIff(cfg: Control.Config, run: seq<World.Action>, w: World.State, t: World.Tid)
    requires Happened(cfg, run, w)
    ensures VerdictLeads(World.FramesTo(w, t)) <==> !Overtaken(World.Init(cfg), run, t)
  {
    WInvInit(cfg);
    VerdictRun(World.Init(cfg), run, t);
  }

  /** Extends a run of the whole system by one step. */
  lemma AndThen(cfg: Control.Config, run: seq<World.Action>, w: World.State, a: World.Action)
    returns (run': seq<World.Action>, w': World.State)
    requires Happened(cfg, run, w) && World.Enabled(w, a)
    ensures Happened(cfg, run', w') && w' == World.Apply(w, a)
  {
    assert [a][1..] == [];
    assert World.Valid(World.Apply(w, a), []);
    assert World.Valid(w, [a]);
    World.Concat(World.Init(cfg), run, [a]);
    run', w' := run + [a], World.Apply(w, a);
  }

  /** Steps of the control plane that neither write to a CLI nor end an accept loop or a node session. */
  predicate Silent(run: seq<Control.Action>) {
    forall i | 0 <= i < |run| :: !run[i].LeaveDirect? && !run[i].AckDirect? && !run[i].AckVia? && !run[i].DropNode?
  }

  function Lifted(run: seq<Control.Action>): seq<World.Action> {
    if run == [] then [] else [World.Step(run[0])] + Lifted(run[1..])
  }

  /** A silent run of the control plane is a run of the whole system. */
  lemma {:induction false} Lift(w: World.State, run: seq<Control.Action>)
    requires Control.Valid(w.ctrl, run) && Silent(run)
    ensures World.Valid(w, Lifted(run))
    ensures World.Exec(w, Lifted(run)) == w.(ctrl := Control.Exec(w.ctrl, run))
    decreases |run|
  {
    if run != [] {
      var a := World.Step(run[0]);
      assert w.connections + [] == w.connections;
      assert World.Apply(w, a) == w.(ctrl := Control.Apply(w.ctrl, run[0]));
      Lift(World.Apply(w, a), run[1..]);
      assert Lifted(run)[1..] == Lifted(run[1..]);
    }
  }

  /** The CLI gets as far as its entry in the tunnel table, through a node that is being served. */
  lemma ListedThroughNode() returns (run: seq<World.Action>, w: World.State)
    ensures Happened(SERVER, run, w) && w == World.Init(SERVER).(ctrl := w.ctrl)
    ensures Control.NodeAt(w.ctrl, 0, Control.Serving)
    ensures w.ctrl.chans[0].frames == [Control.Ack, Control.Open(0, 9000)]
    ensures World.EdgeOf(w.ctrl, 0) == World.Edge("10.0.0.1", 7001)
    ensures 0 in w.ctrl.active && w.ctrl.active[0].route == Some(Control.Route(0, "10.0.0.1", 7001))
  {
    var chan := EDGE.(frames := [Control.Ack], pc := Control.Serving);
    var steps, s := NodeServed();
    steps, s := Ordered(steps, s, chan);
    steps, s := Then(SERVER, steps, s, Control.InsertVia(0, 0));
    Lift(World.Init(SERVER), steps);
    run, w := Lifted(steps), World.Exec(World.Init(SERVER), Lifted(steps));
  }

  /** So a CLI does not always read the verdict first: the node has obeyed its order, a visitor
      has arrived and been reported, and the server forwards it before it answers the CLI. */
  lemma VerdictNotFirst()
    ensures exists run, w :: Happened(SERVER, run, w) && !VerdictLeads(World.FramesTo(w, 0))
  {
    var run, w := ListedThroughNode();
    run, w := AndThen(SERVER, run, w, World.AcceptAtNode(0, 0, 1, World.Address("192.0.2.1", 40000)));
    run, w := AndThen(SERVER, run, w, World.ReportVisitor(0, Control.Delivered));
    run, w := AndThen(SERVER, run, w, World.LookUp(0));
    run, w := AndThen(SERVER, run, w, World.Relay(0, Control.Delivered));
    assert World.FramesTo(w, 0) == [World.NewConn(0, World.Edge("10.0.0.1", 7001))];
  }
}
