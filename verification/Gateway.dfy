/**
 The visitors' side in the form of the source: the `pending` tables, the accept loop
 `serve_tunnel`, the visitors' tasks that wait for a data socket, `handle_data_conn` and
 `forward_visitor` (crates/server/src/control.rs), the same rendezvous on a node
 (crates/node/src/main.rs), and the CLI's dialling (crates/cli/src/tunnel.rs).

 Every critical section is proved to be one step of the whole system. Between the critical
 sections of one handler the others take any steps that are not its own, and each such step
 is proved to leave the handler what it relies on.
 */
module Gateway {
  import opened Wrappers
  import opened Ports
  import opened Nodes
  import Control
  import opened World
  import opened WorldInvariant
  import opened WorldTheorems
  import H = History

  // ---- Traces ----

  ghost predicate Start(w: State, cfg: Control.Config) {
    w == Init(cfg)
  }

  /** `Happened`, said of the start state. */
  ghost predicate Traced(cfg: Control.Config, run: seq<Action>, w: State) {
    forall start | Start(start, cfg) :: Valid(start, run) && Exec(start, run) == w
  }

  lemma TracedHappened(cfg: Control.Config, run: seq<Action>, w: State)
    ensures Traced(cfg, run, w) <==> Happened(cfg, run, w)
  {
    assert Start(Init(cfg), cfg);
  }

  /** `w'` is what step `a` makes of `w`. */
  lemma TracedStep(cfg: Control.Config, run: seq<Action>, w: State, a: Action, w': State)
    requires Traced(cfg, run, w) && Enabled(w, a) && w' == Apply(w, a)
    ensures Traced(cfg, run + [a], w') && w'.ctrl.cfg == w.ctrl.cfg
  {
    TracedHappened(cfg, run, w);
    assert [a][1..] == [];
    assert Valid(w', []);
    assert Valid(w, [a]);
    Concat(Init(cfg), run, [a]);
    TracedHappened(cfg, run + [a], w');
  }

  lemma {:induction false} SplitRun(w: State, first: seq<Action>, second: seq<Action>)
    requires Valid(w, first + second)
    ensures Valid(w, first) && Valid(Exec(w, first), second)
    decreases |first|
  {
    if first == [] {
      assert first + second == second;
    } else {
      assert (first + second)[1..] == first[1..] + second;
      SplitRun(Apply(w, first[0]), first[1..], second);
    }
  }

  lemma TracedBack(cfg: Control.Config, run: seq<Action>, w: State, a: Action, w': State)
    requires Traced(cfg, run, w) && Traced(cfg, run + [a], w')
    ensures Enabled(w, a) && w' == Apply(w, a)
  {
    TracedHappened(cfg, run, w);
    TracedHappened(cfg, run + [a], w');
    SplitRun(Init(cfg), run, [a]);
    Concat(Init(cfg), run, [a]);
    assert [a][1..] == [];
  }

  // ---- The steps, spelled out ----

  function PhaseSet(w: State, c: Cid, phase: VisitorPhase): State
    requires c in w.visitors
  {
    w.(visitors := w.visitors[c := w.visitors[c].(phase := phase)])
  }

  /** What has been written to the CLIs once `frame` was, or was not, written to `t`. */
  function FramesWith(frames: map<Tid, seq<CliFrame>>, t: Tid, frame: CliFrame, sent: Control.Sent)
    : map<Tid, seq<CliFrame>>
  {
    if sent.FailedLost? then frames else frames[t := (if t in frames then frames[t] else []) + [frame]]
  }

  function DownWith(down: set<Tid>, t: Tid, sent: Control.Sent): set<Tid> {
    if sent.Delivered? then down else down + {t}
  }

  lemma AcceptedHere(cfg: Control.Config, run: seq<Action>, w: State, w': State, a: Action)
    requires Traced(cfg, run, w) && a.AcceptHere? && Enabled(w, a)
    requires w' == w.(
      visitors := w.visitors[a.c := Visitor(a.t, w.ctrl.sessions[a.t].port, None, Server, a.source, 0, Noted)],
      pending := w.pending + {a.c})
    ensures Traced(cfg, run + [a], w')
  {
    TracedStep(cfg, run, w, a, w');
  }

  /** A visitor whose notice was written, or was not: its task is spawned, or the loop keeps it in hand. */
  function Informed(v: Visitor, sent: Control.Sent, now: int): Visitor {
    if sent.Delivered? then v.(phase := Waiting, since := now) else v.(phase := Unsent)
  }

  lemma Notified(cfg: Control.Config, run: seq<Action>, w: State, w': State, a: Action)
    requires Traced(cfg, run, w) && a.Notify? && Enabled(w, a)
    requires var t := w.visitors[a.c].tid;
             w' == w.(
               visitors := w.visitors[a.c := Informed(w.visitors[a.c], a.sent, a.now)],
               cliFrames := FramesWith(w.cliFrames, t, NewConn(a.c, Server), a.sent),
               cliDown := DownWith(w.cliDown, t, a.sent))
    ensures Traced(cfg, run + [a], w')
  {
    TracedStep(cfg, run, w, a, w');
  }

  /** The accept loop of session `t` has ended. */
  function LoopLeft(s: Control.State, t: Tid): Control.State
    requires t in s.sessions
  {
    s.(sessions := s.sessions[t := s.sessions[t].(pc := Control.Returned)])
  }

  lemma LoopLeftStep(s: Control.State, t: Tid)
    requires Control.At(s, t, Control.ServingDirect)
    ensures Control.Apply(s, Control.LeaveDirect(t)) == LoopLeft(s, t)
  {
    assert s.log + [] == s.log && s.archive + [] == s.archive;
  }

  lemma Forgotten(cfg: Control.Config, run: seq<Action>, w: State, a: Action) returns (w': State)
    requires Traced(cfg, run, w) && a.Forget? && Enabled(w, a)
    ensures Traced(cfg, run + [a], w') && w'.ctrl.cfg == w.ctrl.cfg
    ensures w.visitors[a.c].node.Some? ==> w'.ctrl == w.ctrl
    ensures w.visitors[a.c].node.None? ==>
              w.visitors[a.c].tid in w.ctrl.sessions && w'.ctrl == LoopLeft(w.ctrl, w.visitors[a.c].tid)
    ensures w' == PhaseSet(w, a.c, Dropped).(
      ctrl := w'.ctrl, pending := w.pending - {a.c}, sockets := Emptied(w.sockets, a.c))
  {
    w' := Apply(w, a);
    TracedStep(cfg, run, w, a, w');
    if w.visitors[a.c].node.None? {
      LoopLeftStep(w.ctrl, w.visitors[a.c].tid);
    }
  }

  lemma Taken(cfg: Control.Config, run: seq<Action>, w: State, w': State, d: Did)
    requires Traced(cfg, run, w) && Enabled(w, Take(d))
    requires w' == w.(sockets := w.sockets[d := w.sockets[d].(
                        phase := if InPending(w, d) then Carrying else Discarded)],
                      pending := if InPending(w, d) then w.pending - {w.sockets[d].cid} else w.pending)
    ensures Traced(cfg, run + [Take(d)], w')
  {
    TracedStep(cfg, run, w, Take(d), w');
  }

  lemma Delivered(cfg: Control.Config, run: seq<Action>, w: State, w': State, d: Did)
    requires Traced(cfg, run, w) && Enabled(w, Deliver(d))
    requires w' == w.(sockets := w.sockets[d := w.sockets[d].(
      phase := if Listening(w.visitors[w.sockets[d].cid]) then InChannel else Discarded)])
    ensures Traced(cfg, run + [Deliver(d)], w')
  {
    TracedStep(cfg, run, w, Deliver(d), w');
  }

  lemma SplicedTo(cfg: Control.Config, run: seq<Action>, w: State, w': State, c: Cid, d: Did)
    requires Traced(cfg, run, w) && Enabled(w, Splice(c, d))
    requires w' == PhaseSet(w, c, Spliced(d)).(sockets := w.sockets[d := w.sockets[d].(phase := Joined)])
    ensures Traced(cfg, run + [Splice(c, d)], w')
  {
    TracedStep(cfg, run, w, Splice(c, d), w');
  }

  lemma RanOut(cfg: Control.Config, run: seq<Action>, w: State, w': State, c: Cid)
    requires Traced(cfg, run, w) && Enabled(w, TimeOut(c))
    requires w' == PhaseSet(w, c, TimedOut).(sockets := Emptied(w.sockets, c))
    ensures Traced(cfg, run + [TimeOut(c)], w')
  {
    TracedStep(cfg, run, w, TimeOut(c), w');
  }

  lemma CleanedUp(cfg: Control.Config, run: seq<Action>, w: State, w': State, c: Cid)
    requires Traced(cfg, run, w) && Enabled(w, CleanUp(c))
    requires w' == PhaseSet(w, c, Dropped).(pending := w.pending - {c})
    ensures Traced(cfg, run + [CleanUp(c)], w')
  {
    TracedStep(cfg, run, w, CleanUp(c), w');
  }

  lemma Finished(cfg: Control.Config, run: seq<Action>, w: State, w': State, c: Cid)
    requires Traced(cfg, run, w) && Enabled(w, Finish(c))
    requires w' == PhaseSet(w, c, Over(w.visitors[c].phase.sock))
    ensures Traced(cfg, run + [Finish(c)], w')
  {
    TracedStep(cfg, run, w, Finish(c), w');
  }

  lemma FiledAway(cfg: Control.Config, run: seq<Action>, w: State, w': State, c: Cid, now: int)
    requires Traced(cfg, run, w) && Enabled(w, File(c, now))
    requires w' == PhaseSet(w, c, Filed(w.visitors[c].phase.sock, now)).(
      connections := w.connections + [ConnectionOf(c, w.visitors[c], now)])
    ensures Traced(cfg, run + [File(c, now)], w')
  {
    TracedStep(cfg, run, w, File(c, now), w');
  }

  lemma AcceptedAtNode(cfg: Control.Config, run: seq<Action>, w: State, w': State, a: Action)
    requires Traced(cfg, run, w) && a.AcceptAtNode? && Enabled(w, a)
    requires var f := w.ctrl.chans[a.n].frames[a.i];
             w' == w.(
               visitors := w.visitors[a.c := Visitor(f.tid, f.port, Some(a.n), EdgeOf(w.ctrl, a.n),
                                                     a.source, 0, Noted)],
               pending := w.pending + {a.c})
    ensures Traced(cfg, run + [a], w')
  {
    TracedStep(cfg, run, w, a, w');
  }

  /** The nodes' reports once `r` was, or was not, written by node `n`. */
  function ReportsWith(reports: map<Nid, seq<Report>>, n: Nid, r: Report, sent: Control.Sent): map<Nid, seq<Report>> {
    if sent.FailedLost? then reports else reports[n := (if n in reports then reports[n] else []) + [r]]
  }

  lemma Reported(cfg: Control.Config, run: seq<Action>, w: State, w': State, a: Action)
    requires Traced(cfg, run, w) && a.ReportVisitor? && Enabled(w, a)
    requires w' == PhaseSet(w, a.c, if a.sent.Delivered? then Waiting else Unsent).(
      reports := ReportsWith(w.reports, w.visitors[a.c].node.value, Report(w.visitors[a.c].tid, a.c), a.sent))
    ensures Traced(cfg, run + [a], w')
  {
    TracedStep(cfg, run, w, a, w');
  }

  lemma Aborted(cfg: Control.Config, run: seq<Action>, w: State, w': State, a: Action)
    requires Traced(cfg, run, w) && a.Abort? && Enabled(w, a)
    requires var v := w.visitors[a.c];
             w' == w.(reports := ReportsWith(w.reports, v.node.value, Report(v.tid, a.c), a.sent),
                      sockets := Emptied(w.sockets, a.c), visitors := w.visitors[a.c := v.(phase := Dropped)])
    ensures Traced(cfg, run + [a], w')
  {
    TracedStep(cfg, run, w, a, w');
  }

  lemma LookedUp(cfg: Control.Config, run: seq<Action>, w: State, w': State, n: Nid)
    requires Traced(cfg, run, w) && Enabled(w, LookUp(n))
    requires w' == w.(read := w.read[n := ReadOf(w, n) + 1], jobs := Routed(w, n))
    ensures Traced(cfg, run + [LookUp(n)], w')
  {
    TracedStep(cfg, run, w, LookUp(n), w');
  }

  lemma Relayed(cfg: Control.Config, run: seq<Action>, w: State, w': State, n: Nid, sent: Control.Sent)
    requires Traced(cfg, run, w) && Enabled(w, Relay(n, sent))
    requires var j := w.jobs[n];
             w' == w.(cliFrames := FramesWith(w.cliFrames, j.cli, NewConn(j.cid, j.to), sent),
                      cliDown := DownWith(w.cliDown, j.cli, sent), jobs := w.jobs - {n})
    ensures Traced(cfg, run + [Relay(n, sent)], w')
  {
    TracedStep(cfg, run, w, Relay(n, sent), w');
  }

  lemma Dialled(cfg: Control.Config, run: seq<Action>, w: State, w': State, d: Did, t: Tid, i: nat)
    requires Traced(cfg, run, w) && Enabled(w, Dial(d, t, i))
    requires var f := FramesTo(w, t)[i];
             w' == w.(sockets := w.sockets[d := Socket(f.cid, t, w.ctrl.sessions[t].reg.localPort, f.to, Opened)])
    ensures Traced(cfg, run + [Dial(d, t, i)], w')
  {
    TracedStep(cfg, run, w, Dial(d, t, i), w');
  }

  /** A step of the control plane alone. */
  lemma Stepped(cfg: Control.Config, run: seq<Action>, w: State, w': State, x: Control.Action)
    requires Traced(cfg, run, w) && Enabled(w, Step(x))
    requires var answer := x.AckDirect? || x.AckVia?;
             w' == w.(ctrl := Control.Apply(w.ctrl, x),
                      cliFrames := if answer then FramesWith(w.cliFrames, x.t, Registered, x.sent) else w.cliFrames,
                      cliDown := if answer then DownWith(w.cliDown, x.t, x.sent) else w.cliDown)
    ensures Traced(cfg, run + [Step(x)], w') && w'.ctrl.cfg == w.ctrl.cfg
  {
    assert w.connections + [] == w.connections;
    TracedStep(cfg, run, w, Step(x), w');
  }

  // ---- What a handler owns, and why nobody else touches it ----

  /** The steps that deal with visitor `c`: its accept loop's and its own task's. */
  predicate OfVisitor(a: Action, c: Cid) {
    match a
    case Notify(e, _, _) => e == c
    case ReportVisitor(e, _) => e == c
    case Forget(e) => e == c
    case Splice(e, _) => e == c
    case TimeOut(e) => e == c
    case CleanUp(e) => e == c
    case Finish(e) => e == c
    case File(e, _) => e == c
    case Abort(e, _) => e == c
    case _ => false
  }

  lemma VisitorGuarded(w: State, a: Action, c: Cid)
    requires Enabled(w, a) && c in w.visitors && !OfVisitor(a, c)
    ensures c in Apply(w, a).visitors && Apply(w, a).visitors[c] == w.visitors[c]
  {
  }

  /** The steps of the handler of data socket `d`. */
  predicate OfSocket(a: Action, d: Did) {
    (a.Take? && a.d == d) || (a.Deliver? && a.d == d)
  }

  /** A socket its handler still has. */
  predicate Handled(w: State, d: Did) {
    d in w.sockets && (w.sockets[d].phase == Opened || w.sockets[d].phase == Carrying)
  }

  lemma SocketGuarded(w: State, a: Action, d: Did)
    requires Enabled(w, a) && Handled(w, d) && !OfSocket(a, d)
    ensures d in Apply(w, a).sockets && Apply(w, a).sockets[d] == w.sockets[d]
  {
  }

  /** The steps of the accept loop of session `t`. */
  predicate OfListener(w: State, a: Action, t: Tid) {
    || (a.Step? && a.step == Control.LeaveDirect(t))
    || (a.AcceptHere? && a.t == t)
    || ((a.Notify? || a.Forget?) && a.c in w.visitors && w.visitors[a.c].node.None? && w.visitors[a.c].tid == t)
  }

  /** A visitor that the accept loop of session `t` has in hand. */
  predicate Held(w: State, t: Tid, c: Cid) {
    c in w.visitors && w.visitors[c].tid == t && w.visitors[c].node.None? && InHand(w.visitors[c])
  }

  /** What an accept loop relies on: its session is serving, and it has in hand what it thinks. */
  predicate Listener(w: State, t: Tid, port: Port, held: Option<Cid>) {
    && Control.At(w.ctrl, t, Control.ServingDirect) && w.ctrl.sessions[t].port == port
    && (held.Some? ==> Held(w, t, held.value))
    && (forall c | c in w.visitors && Held(w, t, c) :: held == Some(c))
  }

  lemma ServingStays(s: Control.State, x: Control.Action, t: Tid)
    requires Control.Enabled(s, x) && x != Control.LeaveDirect(t) && Control.At(s, t, Control.ServingDirect)
    ensures t in Control.Apply(s, x).sessions && Control.Apply(s, x).sessions[t] == s.sessions[t]
  {
    OnlyLeaves(s, x, t);
  }

  lemma OnlyLeaves(s: Control.State, x: Control.Action, t: Tid)
    requires Control.Enabled(s, x) && Control.At(s, t, Control.ServingDirect)
    ensures Control.Actor(x) == Some(t) ==> x == Control.LeaveDirect(t)
  {
  }

  lemma HeldGuarded(w: State, a: Action, t: Tid, c: Cid)
    requires Enabled(w, a) && !OfListener(w, a, t)
    ensures Held(Apply(w, a), t, c) <==> Held(w, t, c)
    ensures Held(w, t, c) ==> Apply(w, a).visitors[c] == w.visitors[c]
  {
  }

  lemma ListenerGuarded(w: State, a: Action, t: Tid, port: Port, held: Option<Cid>)
    requires Enabled(w, a) && Listener(w, t, port, held) && !OfListener(w, a, t)
    ensures Listener(Apply(w, a), t, port, held)
    ensures held.Some? ==> Apply(w, a).visitors[held.value] == w.visitors[held.value]
  {
    if CtrlStep(w, a).Some? {
      CtrlStepEnabled(w, a);
      ServingStays(w.ctrl, CtrlStep(w, a).value, t);
    }
    forall c ensures Held(Apply(w, a), t, c) <==> Held(w, t, c) {
      HeldGuarded(w, a, t, c);
    }
    if held.Some? {
      HeldGuarded(w, a, t, held.value);
    }
  }

  /** The steps of the handler of node `n` while it forwards a visitor. */
  predicate OfNode(a: Action, n: Nid) {
    (a.LookUp? && a.n == n) || (a.Relay? && a.n == n)
  }

  lemma JobGuarded(w: State, a: Action, n: Nid)
    requires Enabled(w, a) && !OfNode(a, n)
    ensures n in Apply(w, a).jobs <==> n in w.jobs
    ensures n in w.jobs ==> Apply(w, a).jobs[n] == w.jobs[n]
  {
  }

  /** A step depends on nothing in the archive. */
  lemma EnabledAnyArchive(w: State, a: Action, connections: seq<ConnRecord>)
    ensures Enabled(w.(connections := connections), a) <==> Enabled(w, a)
  {
  }

  /** A data socket announces the id of a visitor there has been. */
  lemma SocketOfVisitor(cfg: Control.Config, run: seq<Action>, w: State, d: Did)
    requires Traced(cfg, run, w) && d in w.sockets
    ensures w.sockets[d].cid in w.visitors
  {
    TracedHappened(cfg, run, w);
    HappenedInv(cfg, run, w);
    assert SocketNamed(w, w.sockets[d]);
  }

  /** The archive and `pending` once a visitor's task has ended. */
  lemma Settled(cfg: Control.Config, run: seq<Action>, w: State, c: Cid)
    requires Traced(cfg, run, w) && c in w.visitors && !Listening(w.visitors[c]) && w.visitors[c].phase != TimedOut
    ensures w.visitors[c].node.None? ==> c !in w.pending
    ensures FiledOf(w.connections, c) ==
            if w.visitors[c].phase.Filed?
            then [ConnectionOf(c, w.visitors[c], w.visitors[c].phase.until)] else []
  {
    TracedHappened(cfg, run, w);
    Rendezvous(cfg, run, w, c);
  }

  // ---- The object ----

  class Gateway {
    const history: H.History
    /** The visitors' tasks, the senders waiting for a data socket, the data sockets. */
    var visitors: map<Cid, Visitor>
    var pending: set<Cid>
    var sockets: map<Did, Socket>
    /** The nodes' reports, how far they have been read, and the route found for the last one. */
    var reports: map<Nid, seq<Report>>
    var read: map<Nid, nat>
    var jobs: map<Nid, Job>
    /** The tables of the control plane; what was written to the CLIs, and which streams have failed. */
    var ctrl: Control.State
    var cliFrames: map<Tid, seq<CliFrame>>
    var cliDown: set<Tid>
    /** The whole system, of which the fields above are a part, and the steps it has taken. */
    ghost var world: State
    ghost var trace: seq<Action>

    /** The fields are what the system says they are. */
    ghost predicate Agrees()
      reads this, history
    {
      && visitors == world.visitors && pending == world.pending && sockets == world.sockets
      && reports == world.reports && read == world.read && jobs == world.jobs
      && ctrl == world.ctrl && cliFrames == world.cliFrames && cliDown == world.cliDown
      && history.connectionLog == world.connections
    }

    /** The whole system is where its trace leads. */
    ghost predicate Good()
      reads this, history
    {
      history.Valid() && Agrees() && Traced(world.ctrl.cfg, trace, world)
    }

    constructor (cfg: Control.Config)
      ensures Good() && world == Init(cfg) && trace == [] && fresh(history)
    {
      history := new H.History();
      visitors, pending, sockets := map[], {}, map[];
      reports, read, jobs := map[], map[], map[];
      ctrl, cliFrames, cliDown := Control.Init(cfg), map[], {};
      world, trace := Init(cfg), [];
      new;
      TracedHappened(cfg, [], world);
    }

    /** This call was exactly the step `a`. */
    twostate predicate Did(a: Action)
      reads this, history
    {
      Good() && world.ctrl.cfg == old(world).ctrl.cfg && trace == old(trace) + [a]
    }

    /** What `Did` says about the whole state. */
    twostate lemma DidApplies(a: Action)
      requires old(Good()) && Did(a)
      ensures Enabled(old(world), a) && world == Apply(old(world), a)
    {
      TracedBack(world.ctrl.cfg, old(trace), old(world), a, world);
    }

    // ---- Critical sections of the direct path ----

    /** A visitor on the server's own listener: a fresh id, its sender in `pending`. */
    method AcceptHere(c: Cid, t: Tid, source: Address)
      requires Good() && Enabled(world, World.AcceptHere(c, t, source))
      modifies this
      ensures Did(World.AcceptHere(c, t, source)) && ctrl == old(ctrl)
      ensures visitors == old(visitors)[c := Visitor(t, old(ctrl).sessions[t].port, None, Server, source, 0, Noted)]
    {
      pending := pending + {c};
      visitors := visitors[c := Visitor(t, ctrl.sessions[t].port, None, Server, source, 0, Noted)];
      ghost var after := world.(pending := pending, visitors := visitors);
      AcceptedHere(world.ctrl.cfg, trace, world, after, World.AcceptHere(c, t, source));
      world, trace := after, trace + [World.AcceptHere(c, t, source)];
    }

    /** Writes one frame to a CLI, or fails to. */
    method WriteCli(t: Tid, frame: CliFrame, sent: Control.Sent)
      modifies this`cliFrames, this`cliDown
      ensures cliFrames == FramesWith(old(cliFrames), t, frame, sent)
      ensures cliDown == DownWith(old(cliDown), t, sent)
    {
      if !sent.FailedLost? {
        cliFrames := cliFrames[t := (if t in cliFrames then cliFrames[t] else []) + [frame]];
      }
      if !sent.Delivered? {
        cliDown := cliDown + {t};
      }
    }

    /** Tells the CLI of the visitor just accepted. */
    method Notify(c: Cid, sent: Control.Sent, now: int)
      requires Good() && Enabled(world, World.Notify(c, sent, now))
      modifies this
      ensures Did(World.Notify(c, sent, now)) && ctrl == old(ctrl)
      ensures visitors == old(visitors)[c := Informed(old(visitors)[c], sent, now)]
    {
      WriteCli(visitors[c].tid, NewConn(c, Server), sent);
      visitors := visitors[c := Informed(visitors[c], sent, now)];
      ghost var after := world.(visitors := visitors, cliFrames := cliFrames, cliDown := cliDown);
      Notified(world.ctrl.cfg, trace, world, after, World.Notify(c, sent, now));
      world, trace := after, trace + [World.Notify(c, sent, now)];
    }

    /** After a failed notice the id is taken back and the server's accept loop ends. */
    method ForgetHere(c: Cid)
      requires Good() && Enabled(world, World.Forget(c)) && visitors[c].node.None?
      modifies this
      ensures Did(World.Forget(c)) && Control.At(ctrl, old(visitors)[c].tid, Control.Returned)
      ensures visitors == old(visitors)[c := old(visitors)[c].(phase := Dropped)]
    {
      ghost var after := Forgotten(world.ctrl.cfg, trace, world, World.Forget(c));
      pending := pending - {c};
      Drop(c);
      ctrl := LoopLeft(ctrl, visitors[c].tid);
      world, trace := after, trace + [World.Forget(c)];
    }

    /** After a failed report the node's accept loop takes the id back and goes on. */
    method ForgetAtNode(c: Cid)
      requires Good() && Enabled(world, World.Forget(c)) && visitors[c].node.Some?
      modifies this
      ensures Did(World.Forget(c))
      ensures visitors == old(visitors)[c := old(visitors)[c].(phase := Dropped)]
    {
      ghost var after := Forgotten(world.ctrl.cfg, trace, world, World.Forget(c));
      pending := pending - {c};
      Drop(c);
      world, trace := after, trace + [World.Forget(c)];
    }

    /** The visitor and the receiver are dropped, with a socket that lies in the channel. */
    method Drop(c: Cid)
      requires c in visitors
      modifies this`sockets, this`visitors
      ensures sockets == Emptied(old(sockets), c)
      ensures visitors == old(visitors)[c := old(visitors)[c].(phase := Dropped)]
    {
      sockets := Emptied(sockets, c);
      visitors := visitors[c := visitors[c].(phase := Dropped)];
    }

    // ---- Critical sections of a visitor's task ----

    method Splice(c: Cid, d: Did)
      requires Good() && Enabled(world, World.Splice(c, d))
      modifies this
      ensures Did(World.Splice(c, d))
      ensures visitors == old(visitors)[c := old(visitors)[c].(phase := Spliced(d))]
    {
      sockets := sockets[d := sockets[d].(phase := Joined)];
      visitors := visitors[c := visitors[c].(phase := Spliced(d))];
      ghost var after := world.(sockets := sockets, visitors := visitors);
      SplicedTo(world.ctrl.cfg, trace, world, after, c, d);
      world, trace := after, trace + [World.Splice(c, d)];
    }

    method TimeOut(c: Cid)
      requires Good() && Enabled(world, World.TimeOut(c))
      modifies this
      ensures Did(World.TimeOut(c))
      ensures visitors == old(visitors)[c := old(visitors)[c].(phase := TimedOut)]
    {
      sockets := Emptied(sockets, c);
      visitors := visitors[c := visitors[c].(phase := TimedOut)];
      ghost var after := world.(sockets := sockets, visitors := visitors);
      RanOut(world.ctrl.cfg, trace, world, after, c);
      world, trace := after, trace + [World.TimeOut(c)];
    }

    method CleanUp(c: Cid)
      requires Good() && Enabled(world, World.CleanUp(c))
      modifies this
      ensures Did(World.CleanUp(c))
      ensures visitors == old(visitors)[c := old(visitors)[c].(phase := Dropped)]
    {
      pending := pending - {c};
      visitors := visitors[c := visitors[c].(phase := Dropped)];
      ghost var after := world.(pending := pending, visitors := visitors);
      CleanedUp(world.ctrl.cfg, trace, world, after, c);
      world, trace := after, trace + [World.CleanUp(c)];
    }

    method Finish(c: Cid)
      requires Good() && Enabled(world, World.Finish(c))
      modifies this
      ensures Did(World.Finish(c))
      ensures visitors == old(visitors)[c := old(visitors)[c].(phase := Over(old(visitors)[c].phase.sock))]
    {
      visitors := visitors[c := visitors[c].(phase := Over(visitors[c].phase.sock))];
      ghost var after := world.(visitors := visitors);
      Finished(world.ctrl.cfg, trace, world, after, c);
      world, trace := after, trace + [World.Finish(c)];
    }

    method File(c: Cid, now: int)
      requires Good() && Enabled(world, World.File(c, now))
      modifies this, history
      ensures Did(World.File(c, now))
      ensures visitors == old(visitors)[c := old(visitors)[c].(phase := Filed(old(visitors)[c].phase.sock, now))]
    {
      history.RecordConnection(ConnectionOf(c, visitors[c], now));
      visitors := visitors[c := visitors[c].(phase := Filed(visitors[c].phase.sock, now))];
      ghost var after := world.(visitors := visitors, connections := history.connectionLog);
      FiledAway(world.ctrl.cfg, trace, world, after, c, now);
      world, trace := after, trace + [World.File(c, now)];
    }

    // ---- Critical sections of a data socket's handler ----

    /** Takes the sender registered under the announced id, if there is one. */
    method Take(d: Did)
      requires Good() && Enabled(world, World.Take(d))
      modifies this
      ensures Did(World.Take(d))
      ensures d in sockets && sockets == old(sockets)[d := sockets[d]]
      ensures sockets[d] == old(sockets)[d].(phase := sockets[d].phase)
      ensures sockets[d].phase == Carrying || sockets[d].phase == Discarded
    {
      var k := sockets[d];
      if k.cid in pending && k.cid in visitors && visitors[k.cid].at == k.to {
        pending := pending - {k.cid};
        sockets := sockets[d := k.(phase := Carrying)];
      } else {
        sockets := sockets[d := k.(phase := Discarded)];
      }
      ghost var after := world.(pending := pending, sockets := sockets);
      Taken(world.ctrl.cfg, trace, world, after, d);
      world, trace := after, trace + [World.Take(d)];
    }

    /** Sends the socket into the channel; that fails when nobody listens any more. */
    method Deliver(d: Did)
      requires Good() && Enabled(world, World.Deliver(d))
      modifies this
      ensures Did(World.Deliver(d))
      ensures d in sockets && sockets == old(sockets)[d := sockets[d]]
      ensures sockets[d] == old(sockets)[d].(phase := sockets[d].phase)
      ensures sockets[d].phase == InChannel || sockets[d].phase == Discarded
    {
      var k := sockets[d];
      sockets := sockets[d := k.(phase := if Listening(visitors[k.cid]) then InChannel else Discarded)];
      ghost var after := world.(sockets := sockets);
      Delivered(world.ctrl.cfg, trace, world, after, d);
      world, trace := after, trace + [World.Deliver(d)];
    }

    // ---- Through a node ----

    /** A visitor on a public port that order `i` of the node's stream has opened. */
    method AcceptAtNode(c: Cid, n: Nid, i: nat, source: Address)
      requires Good() && Enabled(world, World.AcceptAtNode(c, n, i, source))
      modifies this
      ensures Did(World.AcceptAtNode(c, n, i, source))
      ensures c in visitors && visitors[c].phase == Noted && visitors[c].node == Some(n)
    {
      var f := ctrl.chans[n].frames[i];
      pending := pending + {c};
      visitors := visitors[c := Visitor(f.tid, f.port, Some(n), EdgeOf(ctrl, n), source, 0, Noted)];
      ghost var after := world.(pending := pending, visitors := visitors);
      AcceptedAtNode(world.ctrl.cfg, trace, world, after, World.AcceptAtNode(c, n, i, source));
      world, trace := after, trace + [World.AcceptAtNode(c, n, i, source)];
    }

    /** Writes a report to the server, or fails to; a failed report may have got through. */
    method WriteReport(n: Nid, r: Report, sent: Control.Sent)
      modifies this`reports
      ensures reports == ReportsWith(old(reports), n, r, sent)
    {
      if !sent.FailedLost? {
        reports := reports[n := (if n in reports then reports[n] else []) + [r]];
      }
    }

    method ReportVisitor(c: Cid, sent: Control.Sent)
      requires Good() && Enabled(world, World.ReportVisitor(c, sent))
      modifies this
      ensures Did(World.ReportVisitor(c, sent))
      ensures visitors == old(visitors)[c := old(visitors)[c].(phase := if sent.Delivered? then Waiting else Unsent)]
    {
      WriteReport(visitors[c].node.value, Report(visitors[c].tid, c), sent);
      visitors := visitors[c := visitors[c].(phase := if sent.Delivered? then Waiting else Unsent)];
      ghost var after := world.(reports := reports, visitors := visitors);
      Reported(world.ctrl.cfg, trace, world, after, World.ReportVisitor(c, sent));
      world, trace := after, trace + [World.ReportVisitor(c, sent)];
    }

    /** The accept loop is aborted while it reports: the id stays in `pending`. */
    method Abort(c: Cid, sent: Control.Sent)
      requires Good() && Enabled(world, World.Abort(c, sent))
      modifies this
      ensures Did(World.Abort(c, sent))
      ensures visitors == old(visitors)[c := old(visitors)[c].(phase := Dropped)]
    {
      WriteReport(visitors[c].node.value, Report(visitors[c].tid, c), sent);
      Drop(c);
      ghost var after := world.(reports := reports, sockets := sockets, visitors := visitors);
      Aborted(world.ctrl.cfg, trace, world, after, World.Abort(c, sent));
      world, trace := after, trace + [World.Abort(c, sent)];
    }

    /** Where the next report of node `n` is to be forwarded, as the tunnel table has it. */
    function NextJob(n: Nid): Option<Job>
      requires n in reports && (if n in read then read[n] else 0) < |reports[n]|
      reads this
    {
      var r := reports[n][if n in read then read[n] else 0];
      if r.tid in ctrl.active && ctrl.active[r.tid].route.Some? then
        var route := ctrl.active[r.tid].route.value;
        Some(Job(route.cli, r.cid, Edge(route.host, route.dataPort)))
      else None
    }

    /** Reads the next report of a node and looks its tunnel's route up in the table. */
    method LookUp(n: Nid)
      requires Good() && Enabled(world, World.LookUp(n))
      modifies this
      ensures Did(World.LookUp(n))
      ensures old(NextJob(n)) == if n in jobs then Some(jobs[n]) else None
    {
      var k := if n in read then read[n] else 0;
      var r := reports[n][k];
      if r.tid in ctrl.active && ctrl.active[r.tid].route.Some? {
        var route := ctrl.active[r.tid].route.value;
        jobs := jobs[n := Job(route.cli, r.cid, Edge(route.host, route.dataPort))];
      }
      read := read[n := k + 1];
      ghost var after := world.(jobs := jobs, read := read);
      LookedUp(world.ctrl.cfg, trace, world, after, n);
      world, trace := after, trace + [World.LookUp(n)];
    }

    /** Forwards the visitor to the CLI; a failure is only logged. */
    method Relay(n: Nid, sent: Control.Sent)
      requires Good() && Enabled(world, World.Relay(n, sent))
      modifies this
      ensures Did(World.Relay(n, sent)) && n !in jobs
      ensures var job := old(jobs)[n];
              cliFrames == FramesWith(old(cliFrames), job.cli, NewConn(job.cid, job.to), sent)
    {
      var job := jobs[n];
      WriteCli(job.cli, NewConn(job.cid, job.to), sent);
      jobs := jobs - {n};
      ghost var after := world.(jobs := jobs, cliFrames := cliFrames, cliDown := cliDown);
      Relayed(world.ctrl.cfg, trace, world, after, n, sent);
      world, trace := after, trace + [World.Relay(n, sent)];
    }

    /** A CLI dials where a notice it has read tells it to. */
    method Dial(d: Did, t: Tid, i: nat)
      requires Good() && Enabled(world, World.Dial(d, t, i))
      modifies this
      ensures Did(World.Dial(d, t, i))
    {
      var frame := cliFrames[t][i];
      sockets := sockets[d := Socket(frame.cid, t, ctrl.sessions[t].reg.localPort, frame.to, Opened)];
      ghost var after := world.(sockets := sockets);
      Dialled(world.ctrl.cfg, trace, world, after, d, t, i);
      world, trace := after, trace + [World.Dial(d, t, i)];
    }

    // ---- The control plane ----

    /** A step of the control plane that writes nothing to a CLI. It is taken as the transition
        system has it; the statements behind it are those of the server's own methods. */
    method Advance(x: Control.Action)
      requires Good() && Enabled(world, Step(x)) && !x.AckDirect? && !x.AckVia?
      modifies this
      ensures Did(Step(x))
    {
      ctrl := Control.Apply(ctrl, x);
      ghost var after := world.(ctrl := ctrl);
      Stepped(world.ctrl.cfg, trace, world, after, x);
      world, trace := after, trace + [Step(x)];
    }

    /** The same for a step that answers a CLI, which is written here. */
    method Answer(x: Control.Action)
      requires Good() && Enabled(world, Step(x)) && (x.AckDirect? || x.AckVia?)
      modifies this
      ensures Did(Step(x))
    {
      WriteCli(x.t, Registered, x.sent);
      ctrl := Control.Apply(ctrl, x);
      ghost var after := world.(ctrl := ctrl, cliFrames := cliFrames, cliDown := cliDown);
      Stepped(world.ctrl.cfg, trace, world, after, x);
      world, trace := after, trace + [Step(x)];
    }

    // ---- The others ----

    /** Any step of any handler, by the critical section it belongs to. */
    method Perform(a: Action)
      requires Good() && Enabled(world, a)
      modifies this, history
      ensures Did(a) && world == Apply(old(world), a)
    {
      if a.Step? && (a.step.AckDirect? || a.step.AckVia?) {
        Answer(a.step);
      } else if a.Step? {
        Advance(a.step);
      } else if a.Notify? || a.Forget? || a.AcceptHere? {
        PerformLoop(a);
      } else if a.AcceptAtNode? || a.ReportVisitor? || a.Abort? || a.LookUp? || a.Relay? || a.Dial? {
        PerformRemote(a);
      } else {
        PerformTask(a);
      }
      DidApplies(a);
    }

    method PerformLoop(a: Action)
      requires Good() && Enabled(world, a)
      requires a.Notify? || a.Forget? || a.AcceptHere?
      modifies this
      ensures Did(a)
    {
      match a {
        case AcceptHere(c, t, source) => AcceptHere(c, t, source);
        case Notify(c, sent, now) => Notify(c, sent, now);
        case Forget(c) =>
          if visitors[c].node.None? {
            ForgetHere(c);
          } else {
            ForgetAtNode(c);
          }
      }
    }

    method PerformRemote(a: Action)
      requires Good() && Enabled(world, a)
      requires a.AcceptAtNode? || a.ReportVisitor? || a.Abort? || a.LookUp? || a.Relay? || a.Dial?
      modifies this
      ensures Did(a)
    {
      match a {
        case AcceptAtNode(c, n, i, source) => AcceptAtNode(c, n, i, source);
        case ReportVisitor(c, sent) => ReportVisitor(c, sent);
        case Abort(c, sent) => Abort(c, sent);
        case LookUp(n) => LookUp(n);
        case Relay(n, sent) => Relay(n, sent);
        case Dial(d, t, i) => Dial(d, t, i);
      }
    }

    method PerformTask(a: Action)
      requires Good() && Enabled(world, a)
      requires a.Take? || a.Deliver? || a.Splice? || a.TimeOut? || a.CleanUp? || a.Finish? || a.File?
      modifies this, history
      ensures Did(a)
    {
      match a {
        case Take(d) => Take(d);
        case Deliver(d) => Deliver(d);
        case Splice(c, d) => Splice(c, d);
        case TimeOut(c) => TimeOut(c);
        case CleanUp(c) => CleanUp(c);
        case Finish(c) => Finish(c);
        case File(c, now) => File(c, now);
      }
    }

    /** Everything a step depends on. */
    function Now(): State
      reads this
    {
      State(ctrl, visitors, pending, sockets, cliFrames, cliDown, reports, read, jobs, [])
    }

    /** May `a` happen now? */
    method May(a: Action) returns (yes: bool)
      requires Good()
      ensures yes <==> Enabled(world, a)
    {
      assert Now() == world.(connections := []);
      EnabledAnyArchive(world, a, []);
      yes := Enabled(Now(), a);
    }

    // Between two critical sections of one handler the others take any steps.

    method AwaitVisitor(c: Cid)
      requires Good() && c in visitors
      modifies this, history
      ensures Good() && old(trace) <= trace && c in visitors && visitors[c] == old(visitors)[c]
    {
      var rounds: nat := *;
      while rounds > 0
        invariant Good() && old(trace) <= trace && c in visitors && visitors[c] == old(visitors)[c]
      {
        rounds := rounds - 1;
        var a: Action := *;
        var may := May(a);
        if may && !OfVisitor(a, c) {
          VisitorGuarded(world, a, c);
          Perform(a);
        }
      }
    }

    method AwaitSocket(d: Did)
      requires Good() && Handled(world, d)
      modifies this, history
      ensures Good() && old(trace) <= trace && d in sockets && sockets[d] == old(sockets)[d]
    {
      var rounds: nat := *;
      while rounds > 0
        invariant Good() && old(trace) <= trace && d in sockets && sockets[d] == old(sockets)[d]
      {
        rounds := rounds - 1;
        var a: Action := *;
        var may := May(a);
        if may && !OfSocket(a, d) {
          SocketGuarded(world, a, d);
          Perform(a);
        }
      }
    }

    method AwaitListener(t: Tid, port: Port, held: Option<Cid>)
      requires Good() && Listener(world, t, port, held)
      modifies this, history
      ensures Good() && old(trace) <= trace && Listener(world, t, port, held)
      ensures held.Some? ==> visitors[held.value] == old(visitors)[held.value]
    {
      var rounds: nat := *;
      while rounds > 0
        invariant Good() && old(trace) <= trace && Listener(world, t, port, held)
        invariant held.Some? ==> visitors[held.value] == old(visitors)[held.value]
      {
        rounds := rounds - 1;
        var a: Action := *;
        var may := May(a);
        if may && !OfListener(Now(), a, t) {
          ListenerGuarded(world, a, t, port, held);
          Perform(a);
        }
      }
    }

    method AwaitNode(n: Nid)
      requires Good() && n in jobs
      modifies this, history
      ensures Good() && old(trace) <= trace && n in jobs && jobs[n] == old(jobs)[n]
    {
      var rounds: nat := *;
      while rounds > 0
        invariant Good() && old(trace) <= trace && n in jobs && jobs[n] == old(jobs)[n]
      {
        rounds := rounds - 1;
        var a: Action := *;
        var may := May(a);
        if may && !OfNode(a, n) {
          JobGuarded(world, a, n);
          Perform(a);
        }
      }
    }

    /** How the network lets a write to a CLI end; a stream that has failed fails again. */
    method Outcome(t: Tid) returns (sent: Control.Sent)
      ensures Control.CanSend(t !in cliDown, sent)
    {
      sent := *;
      if t in cliDown {
        sent := Control.FailedLost;
      }
    }

    // ---- Whole handlers ----

    /** How a visitor's task may end. */
    static predicate Ended(v: Visitor) {
      v.phase == Dropped || (if v.node.None? then v.phase.Filed? else v.phase.Over?)
    }

    /** No data socket in time. */
    method Expire(c: Cid)
      requires Good() && PhaseIs(world, c, Waiting)
      modifies this, history
      ensures Good() && old(trace) <= trace && c in visitors
      ensures visitors[c] == old(visitors)[c].(phase := Dropped)
    {
      TimeOut(c);
      AwaitVisitor(c);
      CleanUp(c);
    }

    /** Either side has closed; the server archives the connection. */
    method Conclude(c: Cid)
      requires Good() && c in visitors && visitors[c].phase.Spliced?
      modifies this, history
      ensures Good() && old(trace) <= trace && c in visitors
      ensures visitors[c] == old(visitors)[c].(phase := visitors[c].phase) && Ended(visitors[c])
      ensures SocketOf(visitors[c]) == Some(old(visitors)[c].phase.sock)
    {
      Finish(c);
      if visitors[c].node.None? {
        AwaitVisitor(c);
        var now: int := *;
        File(c, now);
      }
    }

    /** The data socket is there: copy until either side closes. */
    method Proxy(c: Cid, d: Did)
      requires Good() && Enabled(world, World.Splice(c, d))
      modifies this, history
      ensures Good() && old(trace) <= trace && c in visitors
      ensures visitors[c] == old(visitors)[c].(phase := visitors[c].phase) && Ended(visitors[c])
      ensures SocketOf(visitors[c]) == Some(d)
    {
      Splice(c, d);
      AwaitVisitor(c);
      Conclude(c);
    }

    /**
     One visitor's task: it waits for its data socket, for a bounded time, and copies until
     either side closes. On the server nothing is left in `pending`, and the connection is
     archived, exactly once, if and only if it was spliced.
     */
    method ServeVisitor(c: Cid)
      requires Good() && PhaseIs(world, c, Waiting)
      modifies this, history
      ensures Good() && old(trace) <= trace && c in visitors
      ensures visitors[c] == old(visitors)[c].(phase := visitors[c].phase) && Ended(visitors[c])
      ensures visitors[c].node.None? ==> c !in pending
      ensures FiledOf(history.connectionLog, c) ==
              if visitors[c].phase.Filed? then [ConnectionOf(c, visitors[c], visitors[c].phase.until)] else []
    {
      AwaitVisitor(c);
      var d: Did, expired: bool := *, *;
      if expired || d !in sockets || sockets[d].phase != InChannel || sockets[d].cid != c {
        Expire(c);
      } else {
        Proxy(c, d);
      }
      Settled(world.ctrl.cfg, trace, world, c);
    }

    /** `handle_data_conn`: hands a data socket to the visitor waiting on the id it announces. */
    method HandleDataConn(d: Did)
      requires Good() && d in sockets && sockets[d].phase == Opened
      modifies this, history
      ensures Good() && old(trace) <= trace && d in sockets
      ensures sockets[d] == old(sockets)[d].(phase := sockets[d].phase)
      ensures sockets[d].phase == InChannel || sockets[d].phase == Discarded
    {
      AwaitSocket(d);
      Take(d);
      if sockets[d].phase == Carrying {
        AwaitSocket(d);
        SocketOfVisitor(world.ctrl.cfg, trace, world, d);
        Deliver(d);
      }
    }

    /** The notice could not be written: the id is taken back and the loop ends. */
    method GiveUp(t: Tid, port: Port, c: Cid)
      requires Good() && Listener(world, t, port, Some(c)) && visitors[c].phase == Unsent
      modifies this, history
      ensures Good() && old(trace) <= trace && Control.At(ctrl, t, Control.Returned)
    {
      AwaitListener(t, port, Some(c));
      ForgetHere(c);
    }

    /** Tells the CLI of the visitor just accepted, if it can be told. */
    method Tell(t: Tid, port: Port, c: Cid) returns (told: bool)
      requires Good() && Listener(world, t, port, Some(c)) && visitors[c].phase == Noted
      modifies this, history
      ensures Good() && old(trace) <= trace
      ensures if told then Listener(world, t, port, None) else Control.At(ctrl, t, Control.Returned)
    {
      var sent := Outcome(t);
      var now: int := *;
      Notify(c, sent, now);
      told := sent.Delivered?;
      if !told {
        GiveUp(t, port, c);
      }
    }

    method ServeNext(t: Tid, port: Port, c: Cid, source: Address) returns (told: bool)
      requires Good() && Listener(world, t, port, None) && c !in visitors
      modifies this, history
      ensures Good() && old(trace) <= trace
      ensures if told then Listener(world, t, port, None) else Control.At(ctrl, t, Control.Returned)
    {
      AcceptHere(c, t, source);
      AwaitListener(t, port, Some(c));
      told := Tell(t, port, c);
    }

    /** `serve_tunnel`: accepts visitors and tells the CLI of each, until the CLI is gone, the
        dashboard asks to stop, or a notice cannot be written. */
    method ServeTunnel(t: Tid, port: Port)
      requires Good() && Listener(world, t, port, None)
      modifies this, history
      ensures Good() && old(trace) <= trace && Control.At(ctrl, t, Control.Returned)
    {
      var rounds: nat := *;
      while rounds > 0
        invariant Good() && old(trace) <= trace && Listener(world, t, port, None)
      {
        rounds := rounds - 1;
        AwaitListener(t, port, None);
        var c: Cid, source: Address := *, *;
        if c !in visitors {
          var told := ServeNext(t, port, c, source);
          if !told {
            return;
          }
        }
      }
      AwaitListener(t, port, None);
      Leave(t);
    }

    /** The accept loop ends between two visitors. */
    method Leave(t: Tid)
      requires Good() && Idle(world, t) && Control.At(world.ctrl, t, Control.ServingDirect)
      modifies this
      ensures Did(Step(Control.LeaveDirect(t))) && Control.At(ctrl, t, Control.Returned)
    {
      ghost var before := ctrl;
      Advance(Control.LeaveDirect(t));
      DidApplies(Step(Control.LeaveDirect(t)));
      LoopLeftStep(before, t);
    }

    /** `tunnel_accept_loop`, one visitor: it ends waiting for its data socket, or dropped. */
    method ServeAtNode(c: Cid, n: Nid, i: nat, source: Address)
      requires Good() && Enabled(world, World.AcceptAtNode(c, n, i, source))
      modifies this, history
      ensures Good() && old(trace) <= trace && c in visitors && visitors[c].node == Some(n)
      ensures visitors[c].phase == Waiting || visitors[c].phase == Dropped
    {
      AcceptAtNode(c, n, i, source);
      AwaitVisitor(c);
      var sent: Control.Sent, aborted: bool := *, *;
      if aborted {
        Abort(c, sent);
      } else {
        ReportVisitor(c, sent);
        if !sent.Delivered? {
          AwaitVisitor(c);
          ForgetAtNode(c);
        }
      }
    }

    /** The last thing written to the CLI of a job is its notice. */
    predicate Noticed(job: Job)
      reads this
    {
      && job.cli in cliFrames && cliFrames[job.cli] != []
      && cliFrames[job.cli][|cliFrames[job.cli]| - 1] == NewConn(job.cid, job.to)
    }

    /**
     `forward_visitor`: the route of the reported tunnel, if it has one, and then one notice to
     its CLI, along that route whatever has become of the tunnel meanwhile.
     */
    method ForwardVisitor(n: Nid) returns (job: Option<Job>, sent: Control.Sent)
      requires Good() && Enabled(world, World.LookUp(n))
      modifies this, history
      ensures Good() && old(trace) <= trace && n !in jobs
      ensures job == old(NextJob(n))
      ensures job.None? ==> trace == old(trace) + [World.LookUp(n)]
      ensures job.Some? ==> trace != [] && trace[|trace| - 1] == World.Relay(n, sent)
      ensures job.Some? && !sent.FailedLost? ==> Noticed(job.value)
    {
      LookUp(n);
      job, sent := None, Control.FailedLost;
      if n in jobs {
        job := Some(jobs[n]);
        AwaitNode(n);
        sent := Outcome(jobs[n].cli);
        Relay(n, sent);
      }
    }
  }
}
