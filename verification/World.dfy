/**
 Visitors and data connections on top of the control plane: the server's own accept loop
 (`serve_tunnel`, `handle_data_conn`), the same rendezvous on an edge node
 (`tunnel_accept_loop`, `handle_data_conn` of crates/node/src/main.rs), the forwarding of a
 node's reports (`forward_visitor`) and the CLI's answer (crates/cli/src/tunnel.rs).

 The 10 s timeout is a step that may happen at any moment of the wait. A write that failed
 may or may not have reached the peer.
 */
module World {
  import opened Wrappers
  import opened Ports
  import opened Nodes
  import Control

  type Tid = Control.Tid
  type Cid = nat   // a connection id, drawn fresh
  type Did = nat   // a data socket

  /** Where a data connection is dialled: the server's data port, or a node's. */
  datatype Endpoint = Server | Edge(host: string, dataPort: Port)

  /** Where a visitor comes from. */
  datatype Address = Address(ip: string, port: Port)

  /** A visitor from its accept on: `Noted` until its notice is written, or `Unsent` if that
      failed; `Waiting` once its task runs. */
  datatype VisitorPhase =
    | Noted | Unsent | Waiting | TimedOut | Dropped
    | Spliced(sock: Did) | Over(sock: Did) | Filed(sock: Did, until: int)

  datatype Visitor = Visitor(
    tid: Tid, port: Port, node: Option<Nid>, at: Endpoint, source: Address, since: int, phase: VisitorPhase)

  /** A data socket: opened, holding the sender taken from `pending`, in the channel, spliced, or dropped. */
  datatype SocketPhase = Opened | Carrying | InChannel | Joined | Discarded

  datatype Socket = Socket(cid: Cid, cli: Tid, localPort: Port, to: Endpoint, phase: SocketPhase)

  datatype CliFrame = Registered | NewConn(cid: Cid, to: Endpoint)

  datatype Report = Report(tid: Tid, cid: Cid)

  /** What `handle_node` carries between reading a route and writing to the CLI. */
  datatype Job = Job(cli: Tid, cid: Cid, to: Endpoint)

  datatype ConnRecord = ConnRecord(tid: Tid, cid: Cid, source: Address, since: int, durationSecs: nat)

  /** The history record of a connection that ended at `until`. */
  function ConnectionOf(c: Cid, v: Visitor, until: int): ConnRecord {
    ConnRecord(v.tid, c, v.source, v.since, Control.DurationSecs(v.since, until))
  }

  datatype State = State(
    ctrl: Control.State,
    visitors: map<Cid, Visitor>,
    pending: set<Cid>,                 // of the endpoint where the visitor is
    sockets: map<Did, Socket>,
    cliFrames: map<Tid, seq<CliFrame>>,
    cliDown: set<Tid>,                 // CLIs whose control stream has failed a write
    reports: map<Nid, seq<Report>>,
    read: map<Nid, nat>,
    jobs: map<Nid, Job>,
    connections: seq<ConnRecord>)

  function Init(cfg: Control.Config): State {
    State(Control.Init(cfg), map[], {}, map[], map[], {}, map[], map[], map[], [])
  }

  datatype Action =
    | Step(step: Control.Action)
    | AcceptHere(c: Cid, t: Tid, source: Address)
    | AcceptAtNode(c: Cid, n: Nid, i: nat, source: Address)
    | Notify(c: Cid, sent: Control.Sent, now: int)
    | ReportVisitor(c: Cid, sent: Control.Sent)
    | Forget(c: Cid)
    | LookUp(n: Nid)
    | Relay(n: Nid, sent: Control.Sent)
    | Dial(d: Did, t: Tid, i: nat)
    | Take(d: Did)
    | Deliver(d: Did)
    | Splice(c: Cid, d: Did)
    | TimeOut(c: Cid)
    | CleanUp(c: Cid)
    | Finish(c: Cid)
    | File(c: Cid, now: int)
    | Abort(c: Cid, sent: Control.Sent)

  function FramesTo(w: State, t: Tid): seq<CliFrame> {
    if t in w.cliFrames then w.cliFrames[t] else []
  }

  function ReportsOf(w: State, n: Nid): seq<Report> {
    if n in w.reports then w.reports[n] else []
  }

  function ReadOf(w: State, n: Nid): nat {
    if n in w.read then w.read[n] else 0
  }

  predicate PhaseIs(w: State, c: Cid, phase: VisitorPhase) {
    c in w.visitors && w.visitors[c].phase == phase
  }

  /** An accept loop still deals with the visitor itself: its task has not been spawned. */
  predicate InHand(v: Visitor) {
    v.phase == Noted || v.phase == Unsent
  }

  /** The accept loop of the direct path is between two visitors. */
  predicate Idle(w: State, t: Tid) {
    forall c | c in w.visitors :: w.visitors[c].tid == t && w.visitors[c].node.None? ==> !InHand(w.visitors[c])
  }

  /** The receiving half of a visitor's channel still exists. */
  predicate Listening(v: Visitor) {
    InHand(v) || v.phase == Waiting
  }

  predicate InPending(w: State, d: Did)
    requires d in w.sockets
  {
    var k := w.sockets[d];
    k.cid in w.pending && k.cid in w.visitors && w.visitors[k.cid].at == k.to
  }

  predicate Enabled(w: State, a: Action) {
    match a
    case Step(x) =>
      && Control.Enabled(w.ctrl, x)
      && (x.LeaveDirect? ==> Idle(w, x.t))
      && (x.DropNode? ==> x.n !in w.jobs)
      && (x.AckDirect? || x.AckVia? ==> Control.CanSend(x.t !in w.cliDown, x.sent))
    case AcceptHere(c, t, source) => c !in w.visitors && Control.At(w.ctrl, t, Control.ServingDirect) && Idle(w, t)
    case AcceptAtNode(c, n, i, source) =>
      && c !in w.visitors
      && n in w.ctrl.chans
      && 0 < i < |w.ctrl.chans[n].frames|
      && w.ctrl.chans[n].frames[0] == Control.Ack
      && w.ctrl.chans[n].frames[i].Open?
    case Notify(c, sent, now) =>
      && PhaseIs(w, c, Noted) && w.visitors[c].node.None?
      && Control.At(w.ctrl, w.visitors[c].tid, Control.ServingDirect)
      && Control.CanSend(w.visitors[c].tid !in w.cliDown, sent)
    case ReportVisitor(c, sent) => PhaseIs(w, c, Noted) && w.visitors[c].node.Some?
    case Forget(c) =>
      && PhaseIs(w, c, Unsent)
      && (w.visitors[c].node.None? ==> Control.At(w.ctrl, w.visitors[c].tid, Control.ServingDirect))
    case LookUp(n) =>
      && Control.NodeAt(w.ctrl, n, Control.Serving)
      && n !in w.jobs && ReadOf(w, n) < |ReportsOf(w, n)|
    case Relay(n, sent) => n in w.jobs && Control.CanSend(w.jobs[n].cli !in w.cliDown, sent)
    case Dial(d, t, i) =>
      && d !in w.sockets
      && 0 < i < |FramesTo(w, t)|
      && FramesTo(w, t)[0] == Registered
      && FramesTo(w, t)[i].NewConn?
      && t in w.ctrl.sessions
    case Take(d) => d in w.sockets && w.sockets[d].phase == Opened
    case Deliver(d) => d in w.sockets && w.sockets[d].phase == Carrying && w.sockets[d].cid in w.visitors
    case Splice(c, d) =>
      && PhaseIs(w, c, Waiting)
      && d in w.sockets && w.sockets[d].phase == InChannel && w.sockets[d].cid == c
    case TimeOut(c) => PhaseIs(w, c, Waiting)
    case CleanUp(c) => PhaseIs(w, c, TimedOut)
    case Finish(c) => c in w.visitors && w.visitors[c].phase.Spliced?
    case File(c, now) => c in w.visitors && w.visitors[c].phase.Over? && w.visitors[c].node.None?
    case Abort(c, sent) => PhaseIs(w, c, Noted) && w.visitors[c].node.Some?
  }

  /** The control-plane step contained in a step, if any: after a failed notice the server's
      accept loop ends. */
  function CtrlStep(w: State, a: Action): Option<Control.Action> {
    if a.Step? then Some(a.step)
    else if a.Forget? && a.c in w.visitors && w.visitors[a.c].node.None?
    then Some(Control.LeaveDirect(w.visitors[a.c].tid))
    else None
  }

  function CtrlAfter(w: State, a: Action): Control.State
    requires Enabled(w, a)
  {
    if CtrlStep(w, a).Some? then Control.Apply(w.ctrl, CtrlStep(w, a).value) else w.ctrl
  }

  function EdgeOf(s: Control.State, n: Nid): Endpoint
    requires n in s.chans
  {
    Edge(s.chans[n].host, s.chans[n].dataPort)
  }

  /** The visitor a step moves, and where to. */
  function Moved(w: State, a: Action): Option<(Cid, Visitor)>
    requires Enabled(w, a)
  {
    match a
    case AcceptHere(c, t, source) =>
      Some((c, Visitor(t, w.ctrl.sessions[t].port, None, Server, source, 0, Noted)))
    case AcceptAtNode(c, n, i, source) =>
      var f := w.ctrl.chans[n].frames[i];
      Some((c, Visitor(f.tid, f.port, Some(n), EdgeOf(w.ctrl, n), source, 0, Noted)))
    case Notify(c, sent, now) =>
      Some((c, if sent.Delivered? then w.visitors[c].(phase := Waiting, since := now)
               else w.visitors[c].(phase := Unsent)))
    case ReportVisitor(c, sent) => Some((c, w.visitors[c].(phase := if sent.Delivered? then Waiting else Unsent)))
    case Forget(c) => Some((c, w.visitors[c].(phase := Dropped)))
    case Splice(c, d) => Some((c, w.visitors[c].(phase := Spliced(d))))
    case TimeOut(c) => Some((c, w.visitors[c].(phase := TimedOut)))
    case CleanUp(c) => Some((c, w.visitors[c].(phase := Dropped)))
    case Finish(c) => Some((c, w.visitors[c].(phase := Over(w.visitors[c].phase.sock))))
    case File(c, now) => Some((c, w.visitors[c].(phase := Filed(w.visitors[c].phase.sock, now))))
    case Abort(c, sent) => Some((c, w.visitors[c].(phase := Dropped)))
    case _ => None
  }

  function VisitorsAfter(w: State, a: Action): map<Cid, Visitor>
    requires Enabled(w, a)
  {
    if Moved(w, a).Some? then w.visitors[Moved(w, a).value.0 := Moved(w, a).value.1] else w.visitors
  }

  /** An accept registers the id; delivery takes it out; so does the clean-up after a failed
      notice or a time-out. */
  function PendingAfter(w: State, a: Action): set<Cid>
    requires Enabled(w, a)
  {
    match a
    case AcceptHere(c, t, source) => w.pending + {c}
    case AcceptAtNode(c, n, i, source) => w.pending + {c}
    case Forget(c) => w.pending - {c}
    case Take(d) => if InPending(w, d) then w.pending - {w.sockets[d].cid} else w.pending
    case CleanUp(c) => w.pending - {c}
    case _ => w.pending
  }

  /** Dropping the receiver drops a socket that already lies in the channel. */
  function Emptied(sockets: map<Did, Socket>, c: Cid): map<Did, Socket> {
    map d | d in sockets ::
      if sockets[d].cid == c && sockets[d].phase == InChannel then sockets[d].(phase := Discarded) else sockets[d]
  }

  function SocketsAfter(w: State, a: Action): map<Did, Socket>
    requires Enabled(w, a)
  {
    match a
    case Dial(d, t, i) =>
      var f := FramesTo(w, t)[i];
      w.sockets[d := Socket(f.cid, t, w.ctrl.sessions[t].reg.localPort, f.to, Opened)]
    case Take(d) => w.sockets[d := w.sockets[d].(phase := if InPending(w, d) then Carrying else Discarded)]
    case Deliver(d) =>
      w.sockets[d := w.sockets[d].(phase := if Listening(w.visitors[w.sockets[d].cid]) then InChannel else Discarded)]
    case Splice(c, d) => w.sockets[d := w.sockets[d].(phase := Joined)]
    case TimeOut(c) => Emptied(w.sockets, c)
    case Forget(c) => Emptied(w.sockets, c)
    case Abort(c, sent) => Emptied(w.sockets, c)
    case _ => w.sockets
  }

  /** What a step writes to one CLI's control stream. */
  function Written(w: State, a: Action): Option<(Tid, CliFrame)>
    requires Enabled(w, a)
  {
    match a
    case Step(x) =>
      if (x.AckDirect? || x.AckVia?) && !x.sent.FailedLost? then Some((x.t, Registered)) else None
    case Notify(c, sent, now) =>
      if sent.FailedLost? then None else Some((w.visitors[c].tid, NewConn(c, Server)))
    case Relay(n, sent) =>
      if sent.FailedLost? then None else Some((w.jobs[n].cli, NewConn(w.jobs[n].cid, w.jobs[n].to)))
    case _ => None
  }

  function CliFramesAfter(w: State, a: Action): map<Tid, seq<CliFrame>>
    requires Enabled(w, a)
  {
    if Written(w, a).Some? then
      var t := Written(w, a).value.0;
      w.cliFrames[t := FramesTo(w, t) + [Written(w, a).value.1]]
    else w.cliFrames
  }

  /** A control stream that has failed a write fails every later one. */
  function CliDownAfter(w: State, a: Action): set<Tid>
    requires Enabled(w, a)
  {
    match a
    case Step(x) => if (x.AckDirect? || x.AckVia?) && !x.sent.Delivered? then w.cliDown + {x.t} else w.cliDown
    case Notify(c, sent, now) => if sent.Delivered? then w.cliDown else w.cliDown + {w.visitors[c].tid}
    case Relay(n, sent) => if sent.Delivered? then w.cliDown else w.cliDown + {w.jobs[n].cli}
    case _ => w.cliDown
  }

  /** What a node writes to the server; a loop aborted while it writes may have got its report out. */
  function ReportsAfter(w: State, a: Action): map<Nid, seq<Report>>
    requires Enabled(w, a)
  {
    if (a.ReportVisitor? || a.Abort?) && !a.sent.FailedLost? then
      var v := w.visitors[a.c];
      w.reports[v.node.value := ReportsOf(w, v.node.value) + [Report(v.tid, a.c)]]
    else w.reports
  }

  /** The route of the reported tunnel, as the table has it now. */
  function Routed(w: State, n: Nid): map<Nid, Job>
    requires ReadOf(w, n) < |ReportsOf(w, n)|
  {
    var r := ReportsOf(w, n)[ReadOf(w, n)];
    if r.tid in w.ctrl.active && w.ctrl.active[r.tid].route.Some? then
      var route := w.ctrl.active[r.tid].route.value;
      w.jobs[n := Job(route.cli, r.cid, Edge(route.host, route.dataPort))]
    else w.jobs
  }

  function Apply(w: State, a: Action): State
    requires Enabled(w, a)
  {
    State(
      CtrlAfter(w, a),
      VisitorsAfter(w, a),
      PendingAfter(w, a),
      SocketsAfter(w, a),
      CliFramesAfter(w, a),
      CliDownAfter(w, a),
      ReportsAfter(w, a),
      if a.LookUp? then w.read[a.n := ReadOf(w, a.n) + 1] else w.read,
      if a.LookUp? then Routed(w, a.n) else if a.Relay? then w.jobs - {a.n} else w.jobs,
      w.connections + if a.File? then [ConnectionOf(a.c, w.visitors[a.c], a.now)] else [])
  }

  // ---- Runs ----

  ghost predicate Valid(w: State, run: seq<Action>)
    decreases |run|
  {
    run == [] || (Enabled(w, run[0]) && Valid(Apply(w, run[0]), run[1..]))
  }

  ghost function Exec(w: State, run: seq<Action>): State
    requires Valid(w, run)
    decreases |run|
  {
    if run == [] then w else Exec(Apply(w, run[0]), run[1..])
  }

  lemma {:induction false} Concat(w: State, first: seq<Action>, second: seq<Action>)
    requires Valid(w, first) && Valid(Exec(w, first), second)
    ensures Valid(w, first + second)
    ensures Exec(w, first + second) == Exec(Exec(w, first), second)
    decreases |first|
  {
    if first == [] {
      assert first + second == second;
    } else {
      assert (first + second)[1..] == first[1..] + second;
      Concat(Apply(w, first[0]), first[1..], second);
    }
  }

  /** The control-plane steps of a run. */
  ghost function CtrlRun(w: State, run: seq<Action>): seq<Control.Action>
    requires Valid(w, run)
    decreases |run|
  {
    if run == [] then []
    else (if CtrlStep(w, run[0]).Some? then [CtrlStep(w, run[0]).value] else []) + CtrlRun(Apply(w, run[0]), run[1..])
  }

  lemma CtrlStepEnabled(w: State, a: Action)
    requires Enabled(w, a) && CtrlStep(w, a).Some?
    ensures Control.Enabled(w.ctrl, CtrlStep(w, a).value)
  {
  }

  /** Every run of the whole system contains a run of the control plane: whatever holds of the
      latter in every run holds here. */
  lemma {:induction false} CtrlRunValid(w: State, run: seq<Action>)
    requires Valid(w, run)
    ensures Control.Valid(w.ctrl, CtrlRun(w, run))
    ensures Exec(w, run).ctrl == Control.Exec(w.ctrl, CtrlRun(w, run))
    decreases |run|
  {
    if run != [] {
      CtrlRunValid(Apply(w, run[0]), run[1..]);
      var rest := CtrlRun(Apply(w, run[0]), run[1..]);
      if CtrlStep(w, run[0]).Some? {
        CtrlStepEnabled(w, run[0]);
        assert CtrlRun(w, run) == [CtrlStep(w, run[0]).value] + rest;
        assert CtrlRun(w, run)[1..] == rest;
      } else {
        assert CtrlRun(w, run) == rest;
      }
    }
  }
}
