/**
 The control plane of the server as a transition system: an unbounded number of CLI
 sessions (`handle_cli` with its two serving paths) and node sessions (`handle_node`),
 interleaved at every lock acquisition, message send and event publication
 (crates/server/src/control.rs).

 A session is named by the UUID it draws for its tunnel; a node session by its node id.
 Both are fresh. A step is an `Action`: `Enabled` says when it may happen and `Apply`
 what it does, so that every nondeterministic choice (which port, which node, whether a
 write fails, what the clock says) is an argument of the action.
 */
module Control {
  import opened Wrappers
  import opened Ports
  import opened Nodes
  import opened DeviceTable

  type Tid = nat

  datatype Protocol = Tcp | Http

  function ProtocolName(p: Protocol): string {
    if p.Tcp? then "tcp" else "http"
  }

  datatype Register = Register(
    token: string,
    protocol: Protocol,
    localPort: Port,
    remotePort: Option<Port>,
    node: Option<string>,
    hostname: Option<string>)

  /** The routing handle of a tunnel: whose control stream, and which node's data port. */
  datatype Route = Route(cli: Tid, host: string, dataPort: Port)

  datatype Entry = Entry(
    protocol: Protocol,
    localPort: Port,
    remotePort: Port,
    node: Option<string>,
    hostname: Option<string>,
    startedAt: int,
    route: Option<Route>)

  /** The copy of a registry row that `pick` returns. */
  datatype NodeRef = NodeRef(nid: Nid, name: string, host: string, dataPort: Port)

  /** Where a CLI session stands; each name says what it did last. */
  datatype Pc =
    | Start | Authorized | Known | Rejected
    | Holding | Picked
    // through a node
    | OpenSent | InsertedVia | CountedVia | AnnouncedVia | ServingVia | LeavingVia | CloseSent
    // on the server itself
    | DirectStart | Bound | AckedDirect | InsertedDirect | ServingDirect
    // back in `handle_cli`
    | Returned | Failed | Removed | Archived | ClosedOut | Unlisted | EndedClosed | EndedUnlisted

  datatype Session = Session(
    reg: Register,
    pc: Pc,
    port: Port,
    node: Option<NodeRef>,
    via: bool,
    startedAt: int,
    taken: Option<Entry>)

  /** What is written to a node's control stream. */
  datatype Frame = Ack | Open(tid: Tid, port: Port) | Close(closed: Tid)

  /** Where a node session stands; `Unacked` when its acknowledgement could not be written. */
  datatype NodePc = Joined | Acked | Unacked | Serving | Gone | Ended

  /** A node session: its address, every frame written to it, whether its writer still works. */
  datatype Chan = Chan(name: string, host: string, dataPort: Port, frames: seq<Frame>, up: bool, pc: NodePc)

  /** The outcome of a write. A failed write may or may not have reached the peer. */
  datatype Sent = Delivered | FailedDelivered | FailedLost

  datatype Event =
    | TunnelOpened(tid: Tid, protocol: string, localPort: Port, remotePort: Port, node: string, startedAt: int)
    | TunnelClosed(closed: Tid)
    | NodeConnected(nid: Nid, name: string)
    | NodeLeft(left: Nid)

  datatype TunnelRecord = TunnelRecord(
    tid: Tid, protocol: string, localPort: Port, remotePort: Port, node: Option<string>,
    startedAt: int, endedAt: int, durationSecs: nat)

  datatype Config = Config(range: Range, tokens: seq<string>)

  datatype State = State(
    cfg: Config,
    available: set<Port>,
    sessions: map<Tid, Session>,
    active: map<Tid, Entry>,
    nodes: Registry,
    chans: map<Nid, Chan>,
    devices: seq<Device>,
    log: seq<Event>,
    archive: seq<TunnelRecord>)

  function Init(cfg: Config): State {
    State(cfg, All(cfg.range), map[], map[], map[], map[], [], [], [])
  }

  datatype Action =
    | Connect(t: Tid, reg: Register)
    | Auth(t: Tid)
    | Upsert(t: Tid, id: nat, now: int)
    | Acquire(t: Tid, port: Option<Port>)
    | Pick(t: Tid, choice: Option<Nid>)
    | SendOpen(t: Tid, sent: Sent)
    | InsertVia(t: Tid, now: int)
    | Count(t: Tid)
    | AnnounceVia(t: Tid)
    | AckVia(t: Tid, sent: Sent)
    | LeaveVia(t: Tid)
    | SendClose(t: Tid, sent: Sent)
    | Uncount(t: Tid)
    | Bind(t: Tid, ok: bool)
    | AckDirect(t: Tid, sent: Sent)
    | InsertDirect(t: Tid, now: int)
    | AnnounceDirect(t: Tid)
    | LeaveDirect(t: Tid)
    | Remove(t: Tid)
    | Archive(t: Tid, now: int)
    | AnnounceClosed(t: Tid)
    | Release(t: Tid)
    | Join(n: Nid, name: string, host: string, dataPort: Port)
    | AckNode(n: Nid, sent: Sent)
    | DropUnacked(n: Nid)
    | AnnounceNode(n: Nid)
    | DropNode(n: Nid)
    | Farewell(n: Nid)

  predicate At(s: State, t: Tid, pc: Pc) {
    t in s.sessions && s.sessions[t].pc == pc
  }

  predicate NodeAt(s: State, n: Nid, pc: NodePc) {
    n in s.chans && s.chans[n].pc == pc
  }

  /** A writer that has failed fails again and delivers nothing more. */
  predicate CanSend(up: bool, sent: Sent) {
    up || sent.FailedLost?
  }

  function AfterSend(c: Chan, frame: Frame, sent: Sent): Chan {
    c.(frames := if sent.FailedLost? then c.frames else c.frames + [frame],
       up := sent.Delivered?)
  }

  predicate NodeWritable(s: State, t: Tid, sent: Sent) {
    && t in s.sessions
    && s.sessions[t].node.Some?
    && s.sessions[t].node.value.nid in s.chans
    && CanSend(s.chans[s.sessions[t].node.value.nid].up, sent)
  }

  function EntryOf(t: Tid, c: Session): Entry {
    Entry(c.reg.protocol, c.reg.localPort, c.port,
          if c.via && c.node.Some? then Some(c.node.value.name) else None,
          c.reg.hostname, c.startedAt,
          if c.via && c.node.Some? then Some(Route(t, c.node.value.host, c.node.value.dataPort)) else None)
  }

  function OpenedEvent(t: Tid, c: Session): Event {
    TunnelOpened(t, ProtocolName(c.reg.protocol), c.reg.localPort, c.port,
                 if c.via && c.node.Some? then c.node.value.name else "", c.startedAt)
  }

  /** Whole seconds between two instants given in nanoseconds, never negative. */
  function DurationSecs(startedAt: int, endedAt: int): nat {
    if endedAt <= startedAt then 0 else (endedAt - startedAt) / 1_000_000_000
  }

  function RecordOf(t: Tid, e: Entry, endedAt: int): TunnelRecord {
    TunnelRecord(t, ProtocolName(e.protocol), e.localPort, e.remotePort, e.node,
                 e.startedAt, endedAt, DurationSecs(e.startedAt, endedAt))
  }

  predicate Enabled(s: State, a: Action) {
    match a
    case Connect(t, reg) => t !in s.sessions
    case Auth(t) => At(s, t, Start)
    case Upsert(t, id, now) => At(s, t, Authorized)
    case Acquire(t, port) =>
      && At(s, t, Known)
      && (match s.sessions[t].reg.remotePort
          case Some(p) => port == Specific(s.cfg.range, s.available, p)
          case None => MayAcquire(s.available, port))
    case Pick(t, choice) => At(s, t, Holding) && IsPick(s.nodes, s.sessions[t].reg.node, choice)
    case SendOpen(t, sent) => At(s, t, Picked) && NodeWritable(s, t, sent)
    case InsertVia(t, now) => At(s, t, OpenSent)
    case Count(t) => At(s, t, InsertedVia) && s.sessions[t].node.Some?
    case AnnounceVia(t) => At(s, t, CountedVia)
    case AckVia(t, sent) => At(s, t, AnnouncedVia)
    case LeaveVia(t) => At(s, t, ServingVia)
    case SendClose(t, sent) => At(s, t, LeavingVia) && NodeWritable(s, t, sent)
    case Uncount(t) => At(s, t, CloseSent) && s.sessions[t].node.Some?
    case Bind(t, ok) => At(s, t, DirectStart)
    case AckDirect(t, sent) => At(s, t, Bound)
    case InsertDirect(t, now) => At(s, t, AckedDirect)
    case AnnounceDirect(t) => At(s, t, InsertedDirect)
    case LeaveDirect(t) => At(s, t, ServingDirect)
    case Remove(t) => At(s, t, Returned) || At(s, t, Failed)
    case Archive(t, now) => At(s, t, Removed) && s.sessions[t].taken.Some?
    case AnnounceClosed(t) => At(s, t, Archived)
    case Release(t) => At(s, t, ClosedOut) || At(s, t, Unlisted)
    case Join(n, name, host, dataPort) => n !in s.chans && n !in s.nodes
    case AckNode(n, sent) => NodeAt(s, n, Joined) && CanSend(s.chans[n].up, sent)
    case DropUnacked(n) => NodeAt(s, n, Unacked)
    case AnnounceNode(n) => NodeAt(s, n, Acked)
    case DropNode(n) => NodeAt(s, n, Serving)
    case Farewell(n) => NodeAt(s, n, Gone)
  }

  /** Who takes the step: a CLI session, or (`None`) a node session. */
  function Actor(a: Action): Option<Tid> {
    match a
    case Join(_, _, _, _) => None
    case AckNode(_, _) => None
    case DropUnacked(_) => None
    case AnnounceNode(_) => None
    case DropNode(_) => None
    case Farewell(_) => None
    case _ => Some(a.t)
  }

  // The effect of a step, one shared structure at a time.

  /** The acting session's own variables. */
  function SessionAfter(s: State, a: Action): Session
    requires Enabled(s, a) && Actor(a).Some?
  {
    if a.Connect? then Session(a.reg, Start, 0, None, false, 0, None) else
    var c := s.sessions[a.t];
    match a
    case Auth(t) => c.(pc := if c.reg.token in s.cfg.tokens then Authorized else Rejected)
    case Upsert(t, id, now) => c.(pc := Known)
    case Acquire(t, port) => if port.Some? then c.(pc := Holding, port := port.value) else c.(pc := Rejected)
    case Pick(t, choice) =>
      if choice.None? then c.(pc := DirectStart) else
      var i := s.nodes[choice.value];
      c.(pc := Picked, node := Some(NodeRef(choice.value, i.name, i.host, i.dataPort)))
    case SendOpen(t, sent) =>
      c.(pc := if sent.Delivered? then OpenSent else DirectStart, via := sent.Delivered?)
    case InsertVia(t, now) => c.(pc := InsertedVia, startedAt := now)
    case Count(t) => c.(pc := CountedVia)
    case AnnounceVia(t) => c.(pc := AnnouncedVia)
    case AckVia(t, sent) => c.(pc := ServingVia)
    case LeaveVia(t) => c.(pc := LeavingVia)
    case SendClose(t, sent) => c.(pc := CloseSent)
    case Uncount(t) => c.(pc := Returned)
    case Bind(t, ok) => c.(pc := if ok then Bound else Failed)
    case AckDirect(t, sent) => c.(pc := if sent.Delivered? then AckedDirect else Failed)
    case InsertDirect(t, now) => c.(pc := InsertedDirect, startedAt := now)
    case AnnounceDirect(t) => c.(pc := ServingDirect)
    case LeaveDirect(t) => c.(pc := Returned)
    case Remove(t) => if t in s.active then c.(pc := Removed, taken := Some(s.active[t])) else c.(pc := Unlisted)
    case Archive(t, now) => c.(pc := Archived)
    case AnnounceClosed(t) => c.(pc := ClosedOut)
    case Release(t) => c.(pc := if c.pc == ClosedOut then EndedClosed else EndedUnlisted)
  }

  function AvailableAfter(s: State, a: Action): set<Port>
    requires Enabled(s, a)
  {
    match a
    case Acquire(t, port) => AfterAcquire(s.available, port)
    case Release(t) => AfterRelease(s.cfg.range, s.available, s.sessions[t].port)
    case _ => s.available
  }

  function ActiveAfter(s: State, a: Action): map<Tid, Entry>
    requires Enabled(s, a)
  {
    match a
    case InsertVia(t, now) => s.active[t := EntryOf(t, SessionAfter(s, a))]
    case InsertDirect(t, now) => s.active[t := EntryOf(t, SessionAfter(s, a))]
    case Remove(t) => s.active - {t}
    case _ => s.active
  }

  function NodesAfter(s: State, a: Action): Registry
    requires Enabled(s, a)
  {
    match a
    case Count(t) => Incremented(s.nodes, s.sessions[t].node.value.nid)
    case Uncount(t) => Decremented(s.nodes, s.sessions[t].node.value.nid)
    case Join(n, name, host, dataPort) => s.nodes[n := NodeInfo(name, host, dataPort, 0)]
    case DropUnacked(n) => s.nodes - {n}
    case DropNode(n) => s.nodes - {n}
    case _ => s.nodes
  }

  function ChansAfter(s: State, a: Action): map<Nid, Chan>
    requires Enabled(s, a)
  {
    match a
    case SendOpen(t, sent) =>
      var n := s.sessions[t].node.value.nid;
      s.chans[n := AfterSend(s.chans[n], Open(t, s.sessions[t].port), sent)]
    case SendClose(t, sent) =>
      var n := s.sessions[t].node.value.nid;
      s.chans[n := AfterSend(s.chans[n], Close(t), sent)]
    case Join(n, name, host, dataPort) => s.chans[n := Chan(name, host, dataPort, [], true, Joined)]
    case AckNode(n, sent) =>
      s.chans[n := AfterSend(s.chans[n], Ack, sent).(pc := if sent.Delivered? then Acked else Unacked)]
    case DropUnacked(n) => s.chans[n := s.chans[n].(pc := Ended)]
    case AnnounceNode(n) => s.chans[n := s.chans[n].(pc := Serving)]
    case DropNode(n) => s.chans[n := s.chans[n].(pc := Gone)]
    case Farewell(n) => s.chans[n := s.chans[n].(pc := Ended)]
    case _ => s.chans
  }

  function DevicesAfter(s: State, a: Action): seq<Device>
    requires Enabled(s, a)
  {
    if a.Upsert? && s.sessions[a.t].reg.hostname.Some?
    then Upserted(s.devices, s.sessions[a.t].reg.hostname.value, a.id, a.now)
    else s.devices
  }

  /** What the step publishes on the event bus. */
  function Published(s: State, a: Action): seq<Event>
    requires Enabled(s, a)
  {
    match a
    case AnnounceVia(t) => [OpenedEvent(t, s.sessions[t])]
    case AnnounceDirect(t) => [OpenedEvent(t, s.sessions[t])]
    case AnnounceClosed(t) => [TunnelClosed(t)]
    case AnnounceNode(n) => [NodeConnected(n, s.chans[n].name)]
    case Farewell(n) => [NodeLeft(n)]
    case _ => []
  }

  /** What the step writes to the tunnel history. */
  function Recorded(s: State, a: Action): seq<TunnelRecord>
    requires Enabled(s, a)
  {
    if a.Archive? then [RecordOf(a.t, s.sessions[a.t].taken.value, a.now)] else []
  }

  function Apply(s: State, a: Action): State
    requires Enabled(s, a)
  {
    State(
      s.cfg,
      AvailableAfter(s, a),
      if Actor(a).Some? then s.sessions[Actor(a).value := SessionAfter(s, a)] else s.sessions,
      ActiveAfter(s, a),
      NodesAfter(s, a),
      ChansAfter(s, a),
      DevicesAfter(s, a),
      s.log + Published(s, a),
      s.archive + Recorded(s, a))
  }

  // ---- Runs ----

  ghost predicate Valid(s: State, run: seq<Action>)
    decreases |run|
  {
    run == [] || (Enabled(s, run[0]) && Valid(Apply(s, run[0]), run[1..]))
  }

  ghost function Exec(s: State, run: seq<Action>): State
    requires Valid(s, run)
    decreases |run|
  {
    if run == [] then s else Exec(Apply(s, run[0]), run[1..])
  }

  lemma {:induction false} Concat(s: State, first: seq<Action>, second: seq<Action>)
    requires Valid(s, first) && Valid(Exec(s, first), second)
    ensures Valid(s, first + second)
    ensures Exec(s, first + second) == Exec(Exec(s, first), second)
    decreases |first|
  {
    if first == [] {
      assert first + second == second;
    } else {
      assert (first + second)[1..] == first[1..] + second;
      Concat(Apply(s, first[0]), first[1..], second);
    }
  }
}
