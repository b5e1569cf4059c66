/**
 The server itself, in the form of the source: one object holding the shared tables, one
 method per critical section of `handle_cli`, `serve_cli_direct`, `serve_cli_via_node` and
 `handle_node` (crates/server/src/control.rs), and those functions built from them. Between
 any two critical sections of one of them, the others take any steps.

 Every critical section is proved to be one step of the transition system, so that whatever
 holds of every run of the latter holds of the server.
 */
module Server {
  import opened Wrappers
  import opened Ports
  import opened Nodes
  import opened DeviceTable
  import opened Control
  import opened ControlShape
  import opened ControlLog
  import opened ControlInvariant
  import opened ControlScripts
  import H = History

  /** Whose turn it is: a new CLI or node, or one that is already there. */
  datatype Turn =
    | NewCli(t: Tid, reg: Register)
    | NewNode(n: Nid, name: string, host: string, dataPort: Port)
    | OfCli(t: Tid)
    | OfNode(n: Nid)

  /** The step `a` is taken by whose turn it is. */
  predicate TakenBy(turn: Turn, a: Action) {
    if turn.NewCli? || turn.OfCli? then Actor(a) == Some(turn.t) else Actor(a).None? && a.n == turn.n
  }

  /** `handle_cli` has returned. */
  predicate Over(pc: Pc) {
    pc.Rejected? || pc.EndedClosed? || pc.EndedUnlisted?
  }

  class Server {
    const cfg: Config
    const portMgr: PortManager
    const nodeManager: NodeManager
    const devices: Devices
    const history: H.History
    var activeTunnels: map<Tid, Entry>
    var published: seq<Event>
    /** The local variables of every CLI task, and of every node task. */
    var tasks: map<Tid, Session>
    var streams: map<Nid, Chan>
    ghost var trace: seq<Action>

    ghost function Parts(): set<object> {
      {this, portMgr, nodeManager, devices, history}
    }

    ghost function View(): State
      reads this, portMgr, nodeManager, devices, history
    {
      State(cfg, portMgr.available, tasks, activeTunnels, nodeManager.nodes, streams, devices.table,
            published, history.tunnelLog)
    }

    /** The server is where its trace leads. */
    ghost predicate Valid()
      reads this, portMgr, nodeManager, devices, history
    {
      && portMgr.Valid() && portMgr.range == cfg.range && history.Valid()
      && Reached(cfg, trace, View())
    }

    constructor (cfg: Config)
      ensures Valid() && this.cfg == cfg && trace == [] && fresh(Parts())
    {
      this.cfg := cfg;
      portMgr := new PortManager(cfg.range.start, cfg.range.end);
      nodeManager := new NodeManager();
      devices := new Devices();
      history := new H.History();
      activeTunnels, published, tasks, streams := map[], [], map[], map[];
      trace := [];
    }

    predicate NodeTaskAt(n: Nid, pc: NodePc)
      reads this
    {
      n in streams && streams[n].pc == pc
    }

    predicate TaskAt(t: Tid, pc: Pc)
      reads this
    {
      t in tasks && tasks[t].pc == pc
    }

    /** This call was exactly the step `a`: the trace grew by it, and the server is where the
        trace leads. */
    twostate predicate Did(a: Action)
      reads this, portMgr, nodeManager, devices, history
    {
      Valid() && trace == old(trace) + [a]
    }

    /** What `Did` says about the shared state. */
    twostate lemma DidApplies(a: Action)
      requires old(Valid()) && Did(a)
      ensures Enabled(old(View()), a) && View() == Apply(old(View()), a)
    {
      Unstep(cfg, old(trace), a);
    }

    /** The call touched no task but `t`. */
    twostate predicate Moved(t: Tid)
      reads this
    {
      && t in tasks
      && tasks == old(tasks)[t := tasks[t]]
      && (t in old(tasks) ==> tasks[t].reg == old(tasks)[t].reg)
      && streams.Keys == old(streams).Keys
      && (forall n | n in streams :: streams[n].pc == old(streams)[n].pc)
    }

    /** The call touched no task but node `n`'s. */
    twostate predicate NodeMoved(n: Nid)
      reads this
    {
      && tasks == old(tasks)
      && n in streams && streams == old(streams)[n := streams[n]]
    }

    ghost method Took(before: State, a: Action)
      requires Reached(cfg, trace, before) && Enabled(before, a) && View() == Apply(before, a)
      requires portMgr.Valid() && portMgr.range == cfg.range && history.Valid()
      modifies this`trace
      ensures Valid() && trace == old(trace) + [a] && View() == old(View())
    {
      ReachedStep(cfg, trace, before, a);
      trace := trace + [a];
    }

    // ---- The critical sections of a CLI task ----

    /** A CLI's first frame was a `Register`. */
    method Accept(t: Tid, reg: Register)
      requires Valid()
      requires t !in tasks
      modifies Parts()
      ensures Did(Connect(t, reg))
      ensures Moved(t) && TaskAt(t, Start) && tasks[t].reg == reg
    {
      ghost var before := View();
      tasks := tasks[t := Session(reg, Start, 0, None, false, 0, None)];
      Took(before, Connect(t, reg));
    }

    /** Validates the token. */
    method CheckToken(t: Tid)
      requires Valid()
      requires TaskAt(t, Start)
      modifies Parts()
      ensures Did(Auth(t))
      ensures Moved(t) && (TaskAt(t, Authorized) || TaskAt(t, Rejected))
    {
      ghost var before := View();
      if tasks[t].reg.token in cfg.tokens {
        tasks := tasks[t := tasks[t].(pc := Authorized)];
      } else {
        tasks := tasks[t := tasks[t].(pc := Rejected)];
      }
      Took(before, Auth(t));
    }

    /** Records the device, if the CLI named one; `id` and `now` stand for the UUID and the clock. */
    method UpsertDevice(t: Tid, id: nat, now: int)
      requires Valid()
      requires TaskAt(t, Authorized)
      modifies Parts()
      ensures Did(Upsert(t, id, now))
      ensures Moved(t) && TaskAt(t, Known)
    {
      ghost var before := View();
      if tasks[t].reg.hostname.Some? {
        devices.Upsert(tasks[t].reg.hostname.value, id, now);
      }
      tasks := tasks[t := tasks[t].(pc := Known)];
      Took(before, Upsert(t, id, now));
    }

    /** Assigns the requested port, or a random one. */
    method AcquirePort(t: Tid) returns (port: Option<Port>)
      requires Valid()
      requires TaskAt(t, Known)
      modifies Parts()
      ensures Did(Acquire(t, port))
      ensures Moved(t) && (TaskAt(t, Holding) || TaskAt(t, Rejected))
      ensures port.Some? <==> tasks[t].pc == Holding
    {
      ghost var before := View();
      match tasks[t].reg.remotePort {
        case Some(p) => port := portMgr.AcquireSpecific(p);
        case None => port := portMgr.Acquire();
      }
      if port.Some? {
        tasks := tasks[t := tasks[t].(pc := Holding, port := port.value)];
      } else {
        tasks := tasks[t := tasks[t].(pc := Rejected)];
      }
      Took(before, Acquire(t, port));
    }

    /** Picks a node, honouring the CLI's preference. */
    method PickNode(t: Tid) returns (choice: Option<Nid>)
      requires Valid()
      requires TaskAt(t, Holding)
      modifies Parts()
      ensures Did(Pick(t, choice))
      ensures Moved(t) && (TaskAt(t, Picked) || TaskAt(t, DirectStart))
      ensures choice.Some? <==> tasks[t].pc == Picked
    {
      ghost var before := View();
      choice := nodeManager.Pick(tasks[t].reg.node);
      if choice.Some? {
        var i := nodeManager.nodes[choice.value];
        tasks := tasks[t := tasks[t].(pc := Picked, node := Some(NodeRef(choice.value, i.name, i.host, i.dataPort)))];
      } else {
        tasks := tasks[t := tasks[t].(pc := DirectStart)];
      }
      Took(before, Pick(t, choice));
    }

    /** Writes one frame to a node's control stream. The network decides how it ends, except
        that a stream that has failed before fails again. */
    method Write(n: Nid, frame: Frame) returns (sent: Sent)
      requires n in streams
      modifies this`streams
      ensures CanSend(old(streams)[n].up, sent)
      ensures streams == old(streams)[n := AfterSend(old(streams)[n], frame, sent)]
    {
      sent := *;
      if !streams[n].up {
        sent := FailedLost;
      }
      streams := streams[n := AfterSend(streams[n], frame, sent)];
    }

    /** Orders the node to open the public port; on failure the direct path takes over. */
    method OrderOpen(t: Tid) returns (sent: Sent)
      requires Valid()
      requires TaskAt(t, Picked)
      modifies Parts()
      ensures Did(SendOpen(t, sent))
      ensures Moved(t) && (TaskAt(t, OpenSent) || TaskAt(t, DirectStart))
      ensures sent.Delivered? <==> tasks[t].pc == OpenSent
    {
      ghost var before := View();
      NodeAtHand(cfg, trace, before, t);
      var n := tasks[t].node.value.nid;
      sent := Write(n, Open(t, tasks[t].port));
      if sent.Delivered? {
        tasks := tasks[t := tasks[t].(pc := OpenSent, via := true)];
      } else {
        tasks := tasks[t := tasks[t].(pc := DirectStart, via := false)];
      }
      Took(before, SendOpen(t, sent));
    }

    /** Enters a tunnel served by a node into the table. */
    method InsertViaNode(t: Tid, now: int)
      requires Valid()
      requires TaskAt(t, OpenSent)
      modifies Parts()
      ensures Did(InsertVia(t, now))
      ensures Moved(t) && TaskAt(t, InsertedVia)
    {
      ghost var before := View();
      tasks := tasks[t := tasks[t].(pc := InsertedVia, startedAt := now)];
      activeTunnels := activeTunnels[t := EntryOf(t, tasks[t])];
      Took(before, InsertVia(t, now));
    }

    /** Counts the tunnel on its node. */
    method IncrementTunnels(t: Tid)
      requires Valid()
      requires TaskAt(t, InsertedVia)
      modifies Parts()
      ensures Did(Count(t))
      ensures Moved(t) && TaskAt(t, CountedVia)
    {
      ghost var before := View();
      NodeAtHand(cfg, trace, before, t);
      var n := tasks[t].node.value.nid;
      nodeManager.IncrementTunnels(n);
      tasks := tasks[t := tasks[t].(pc := CountedVia)];
      Took(before, Count(t));
    }

    /** Publishes the opening. */
    method PublishOpenedVia(t: Tid)
      requires Valid()
      requires TaskAt(t, CountedVia)
      modifies Parts()
      ensures Did(AnnounceVia(t))
      ensures Moved(t) && TaskAt(t, AnnouncedVia)
    {
      ghost var before := View();
      published := published + [OpenedEvent(t, tasks[t])];
      tasks := tasks[t := tasks[t].(pc := AnnouncedVia)];
      Took(before, AnnounceVia(t));
    }

    /** Answers the CLI; the outcome is only logged. */
    method AnswerVia(t: Tid) returns (sent: Sent)
      requires Valid()
      requires TaskAt(t, AnnouncedVia)
      modifies Parts()
      ensures Did(AckVia(t, sent))
      ensures Moved(t) && TaskAt(t, ServingVia)
    {
      ghost var before := View();
      sent := *;
      tasks := tasks[t := tasks[t].(pc := ServingVia)];
      Took(before, AckVia(t, sent));
    }

    /** The CLI has gone, or the dashboard asked to close. */
    method StopVia(t: Tid)
      requires Valid()
      requires TaskAt(t, ServingVia)
      modifies Parts()
      ensures Did(LeaveVia(t))
      ensures Moved(t) && TaskAt(t, LeavingVia)
    {
      ghost var before := View();
      tasks := tasks[t := tasks[t].(pc := LeavingVia)];
      Took(before, LeaveVia(t));
    }

    /** Asks the node to close the public port; the outcome is ignored. */
    method OrderClose(t: Tid) returns (sent: Sent)
      requires Valid()
      requires TaskAt(t, LeavingVia)
      modifies Parts()
      ensures Did(SendClose(t, sent))
      ensures Moved(t) && TaskAt(t, CloseSent)
    {
      ghost var before := View();
      NodeAtHand(cfg, trace, before, t);
      var n := tasks[t].node.value.nid;
      sent := Write(n, Close(t));
      tasks := tasks[t := tasks[t].(pc := CloseSent)];
      Took(before, SendClose(t, sent));
    }

    /** Takes the tunnel off its node's count. */
    method DecrementTunnels(t: Tid)
      requires Valid()
      requires TaskAt(t, CloseSent)
      modifies Parts()
      ensures Did(Uncount(t))
      ensures Moved(t) && TaskAt(t, Returned) && tasks[t].via == old(tasks)[t].via
    {
      ghost var before := View();
      NodeAtHand(cfg, trace, before, t);
      var n := tasks[t].node.value.nid;
      nodeManager.DecrementTunnels(n);
      tasks := tasks[t := tasks[t].(pc := Returned)];
      Took(before, Uncount(t));
    }

    /** Binds the public port on the server; the operating system decides. */
    method BindPort(t: Tid) returns (ok: bool)
      requires Valid()
      requires TaskAt(t, DirectStart)
      modifies Parts()
      ensures Did(Bind(t, ok))
      ensures Moved(t) && (TaskAt(t, Bound) || TaskAt(t, Failed))
      ensures ok <==> tasks[t].pc == Bound
    {
      ghost var before := View();
      ok := *;
      tasks := tasks[t := tasks[t].(pc := if ok then Bound else Failed)];
      Took(before, Bind(t, ok));
    }

    /** Answers the CLI; without an answer the tunnel is given up. */
    method AnswerDirect(t: Tid) returns (sent: Sent)
      requires Valid()
      requires TaskAt(t, Bound)
      modifies Parts()
      ensures Did(AckDirect(t, sent))
      ensures Moved(t) && (TaskAt(t, AckedDirect) || TaskAt(t, Failed))
      ensures sent.Delivered? <==> tasks[t].pc == AckedDirect
    {
      ghost var before := View();
      sent := *;
      tasks := tasks[t := tasks[t].(pc := if sent.Delivered? then AckedDirect else Failed)];
      Took(before, AckDirect(t, sent));
    }

    /** Enters a tunnel served directly into the table. */
    method InsertDirectly(t: Tid, now: int)
      requires Valid()
      requires TaskAt(t, AckedDirect)
      modifies Parts()
      ensures Did(InsertDirect(t, now))
      ensures Moved(t) && TaskAt(t, InsertedDirect)
    {
      ghost var before := View();
      tasks := tasks[t := tasks[t].(pc := InsertedDirect, startedAt := now)];
      activeTunnels := activeTunnels[t := EntryOf(t, tasks[t])];
      Took(before, InsertDirect(t, now));
    }

    /** Publishes the opening. */
    method PublishOpenedDirect(t: Tid)
      requires Valid()
      requires TaskAt(t, InsertedDirect)
      modifies Parts()
      ensures Did(AnnounceDirect(t))
      ensures Moved(t) && TaskAt(t, ServingDirect)
    {
      ghost var before := View();
      published := published + [OpenedEvent(t, tasks[t])];
      tasks := tasks[t := tasks[t].(pc := ServingDirect)];
      Took(before, AnnounceDirect(t));
    }

    /** The accept loop has ended. */
    method StopDirect(t: Tid)
      requires Valid()
      requires TaskAt(t, ServingDirect)
      modifies Parts()
      ensures Did(LeaveDirect(t))
      ensures Moved(t) && TaskAt(t, Returned) && tasks[t].via == old(tasks)[t].via
    {
      ghost var before := View();
      tasks := tasks[t := tasks[t].(pc := Returned)];
      Took(before, LeaveDirect(t));
    }

    /** Takes the tunnel out of the table, if it is there. */
    method RemoveTunnel(t: Tid) returns (removed: Option<Entry>)
      requires Valid()
      requires TaskAt(t, Returned) || TaskAt(t, Failed)
      modifies Parts()
      ensures Did(Remove(t))
      ensures Moved(t) && (TaskAt(t, Removed) || TaskAt(t, Unlisted))
      ensures removed.Some? <==> tasks[t].pc == Removed
      ensures removed.Some? ==> tasks[t].taken.Some?
    {
      ghost var before := View();
      removed := None;
      if t in activeTunnels {
        removed := Some(activeTunnels[t]);
        activeTunnels := activeTunnels - {t};
        tasks := tasks[t := tasks[t].(pc := Removed, taken := removed)];
      } else {
        tasks := tasks[t := tasks[t].(pc := Unlisted)];
        assert activeTunnels == before.active - {t};
      }
      Took(before, Remove(t));
    }

    /** Archives the closed tunnel. */
    method RecordTunnel(t: Tid, now: int)
      requires Valid()
      requires TaskAt(t, Removed) && tasks[t].taken.Some?
      modifies Parts()
      ensures Did(Archive(t, now))
      ensures Moved(t) && TaskAt(t, Archived)
    {
      ghost var before := View();
      history.RecordTunnel(RecordOf(t, tasks[t].taken.value, now));
      tasks := tasks[t := tasks[t].(pc := Archived)];
      Took(before, Archive(t, now));
    }

    /** Publishes the closing. */
    method PublishClosed(t: Tid)
      requires Valid()
      requires TaskAt(t, Archived)
      modifies Parts()
      ensures Did(AnnounceClosed(t))
      ensures Moved(t) && TaskAt(t, ClosedOut)
    {
      ghost var before := View();
      published := published + [TunnelClosed(t)];
      tasks := tasks[t := tasks[t].(pc := ClosedOut)];
      Took(before, AnnounceClosed(t));
    }

    /** Gives the port back. */
    method ReleasePort(t: Tid)
      requires Valid()
      requires TaskAt(t, ClosedOut) || TaskAt(t, Unlisted)
      modifies Parts()
      ensures Did(Release(t))
      ensures Moved(t) && (TaskAt(t, EndedClosed) || TaskAt(t, EndedUnlisted))
    {
      ghost var before := View();
      portMgr.Release(tasks[t].port);
      tasks := tasks[t := tasks[t].(pc := if tasks[t].pc == ClosedOut then EndedClosed else EndedUnlisted)];
      Took(before, Release(t));
    }

    // ---- The critical sections of a node task ----

    /** Registers a node under a fresh id. */
    method RegisterNode(n: Nid, name: string, host: string, dataPort: Port)
      requires Valid()
      requires n !in streams
      modifies Parts()
      ensures Did(Join(n, name, host, dataPort))
      ensures NodeMoved(n) && NodeTaskAt(n, Joined)
    {
      ghost var before := View();
      FreshNode(cfg, trace, before, n);
      nodeManager.Register(n, name, host, dataPort);
      streams := streams[n := Chan(name, host, dataPort, [], true, Joined)];
      Took(before, Join(n, name, host, dataPort));
    }

    /** Acknowledges the registration. */
    method AnswerNode(n: Nid) returns (sent: Sent)
      requires Valid()
      requires NodeTaskAt(n, Joined)
      modifies Parts()
      ensures Did(AckNode(n, sent))
      ensures NodeMoved(n) && NodeTaskAt(n, if sent.Delivered? then Acked else Unacked)
    {
      ghost var before := View();
      sent := Write(n, Ack);
      streams := streams[n := streams[n].(pc := if sent.Delivered? then Acked else Unacked)];
      Took(before, AckNode(n, sent));
    }

    /** A node that could not be told is removed. */
    method RemoveUnacked(n: Nid)
      requires Valid()
      requires NodeTaskAt(n, Unacked)
      modifies Parts()
      ensures Did(DropUnacked(n))
      ensures NodeMoved(n) && NodeTaskAt(n, Ended)
    {
      ghost var before := View();
      nodeManager.Remove(n);
      streams := streams[n := streams[n].(pc := Ended)];
      Took(before, DropUnacked(n));
    }

    /** Publishes the node's arrival. */
    method PublishNode(n: Nid)
      requires Valid()
      requires NodeTaskAt(n, Acked)
      modifies Parts()
      ensures Did(AnnounceNode(n))
      ensures NodeMoved(n) && NodeTaskAt(n, Serving)
    {
      ghost var before := View();
      published := published + [NodeConnected(n, streams[n].name)];
      streams := streams[n := streams[n].(pc := Serving)];
      Took(before, AnnounceNode(n));
    }

    /** The node's control channel has closed. */
    method RemoveNode(n: Nid)
      requires Valid()
      requires NodeTaskAt(n, Serving)
      modifies Parts()
      ensures Did(DropNode(n))
      ensures NodeMoved(n) && NodeTaskAt(n, Gone)
    {
      ghost var before := View();
      nodeManager.Remove(n);
      streams := streams[n := streams[n].(pc := Gone)];
      Took(before, DropNode(n));
    }

    /** Publishes the node's departure. */
    method PublishNodeLeft(n: Nid)
      requires Valid()
      requires NodeTaskAt(n, Gone)
      modifies Parts()
      ensures Did(Farewell(n))
      ensures NodeMoved(n) && NodeTaskAt(n, Ended)
    {
      ghost var before := View();
      published := published + [NodeLeft(n)];
      streams := streams[n := streams[n].(pc := Ended)];
      Took(before, Farewell(n));
    }

    // ---- Interference ----

    /** Whatever happened, it was a run, and no task but `t` and no node task but `n` moved. */
    twostate predicate Elsewhere(t: Option<Tid>, n: Option<Nid>)
      reads this, portMgr, nodeManager, devices, history
    {
      && Valid() && old(trace) <= trace
      && old(tasks).Keys <= tasks.Keys
      && (forall u | u in old(tasks) && t != Some(u) :: tasks[u] == old(tasks)[u])
      && old(streams).Keys <= streams.Keys
      && (forall m | m in old(streams) && n != Some(m) :: streams[m].pc == old(streams)[m].pc)
    }

    /** Can this turn be taken? */
    predicate Possible(turn: Turn)
      reads this
    {
      match turn
      case NewCli(t, _) => t !in tasks
      case NewNode(n, _, _, _) => n !in streams
      case OfCli(t) => t in tasks && !Over(tasks[t].pc)
      case OfNode(n) => n in streams && !streams[n].pc.Ended?
    }

    /** Whoever can take a turn takes exactly one step, and moves nobody else. */
    method Perform(turn: Turn) returns (ghost a: Action)
      requires Valid() && Possible(turn)
      modifies Parts()
      ensures Did(a) && TakenBy(turn, a)
      ensures Elsewhere(Actor(a), if Actor(a).None? then Some(a.n) else None)
    {
      match turn {
        case NewCli(t, reg) =>
          Accept(t, reg);
          a := Connect(t, reg);
        case NewNode(n, name, host, dataPort) =>
          RegisterNode(n, name, host, dataPort);
          a := Join(n, name, host, dataPort);
        case OfCli(t) =>
          a := PerformTask(t, tasks[t].pc);
        case OfNode(n) =>
          a := PerformNode(n, streams[n].pc);
      }
    }

    method PerformNode(n: Nid, pc: NodePc) returns (ghost a: Action)
      requires Valid() && NodeTaskAt(n, pc) && !pc.Ended?
      modifies Parts()
      ensures Did(a) && TakenBy(OfNode(n), a) && NodeMoved(n)
    {
      if pc.Joined? || pc.Unacked? {
        a := PerformGreeting(n, pc);
      } else {
        match pc {
          case Acked => PublishNode(n); a := AnnounceNode(n);
          case Serving => RemoveNode(n); a := DropNode(n);
          case Gone => PublishNodeLeft(n); a := Farewell(n);
        }
      }
    }

    method PerformGreeting(n: Nid, pc: NodePc) returns (ghost a: Action)
      requires Valid() && NodeTaskAt(n, pc) && (pc.Joined? || pc.Unacked?)
      modifies Parts()
      ensures Did(a) && TakenBy(OfNode(n), a) && NodeMoved(n)
    {
      match pc {
        case Joined => var sent := AnswerNode(n); a := AckNode(n, sent);
        case Unacked => RemoveUnacked(n); a := DropUnacked(n);
      }
    }

    /** CLI task `t`, which stands at `pc`, takes its next step. */
    method PerformTask(t: Tid, pc: Pc) returns (ghost a: Action)
      requires Valid() && TaskAt(t, pc) && !Over(pc)
      modifies Parts()
      ensures Did(a) && Actor(a) == Some(t) && Moved(t)
    {
      if ViaPc(pc) {
        a := PerformVia(t, pc);
      } else if pc.DirectStart? || pc.Bound? || pc.AckedDirect? || pc.InsertedDirect? || pc.ServingDirect? {
        a := PerformDirect(t, pc);
      } else if pc.Start? || pc.Authorized? || pc.Known? || pc.Holding? || pc.Picked? {
        a := PerformAdmission(t, pc);
      } else {
        a := PerformCleanUp(t, pc);
      }
    }

    method PerformAdmission(t: Tid, pc: Pc) returns (ghost a: Action)
      requires Valid() && TaskAt(t, pc)
      requires pc.Start? || pc.Authorized? || pc.Known? || pc.Holding? || pc.Picked?
      modifies Parts()
      ensures Did(a) && Actor(a) == Some(t) && Moved(t)
    {
      match pc {
        case Start => CheckToken(t); a := Auth(t);
        case Authorized => var id: nat, now: int := *, *; UpsertDevice(t, id, now); a := Upsert(t, id, now);
        case Known => var port := AcquirePort(t); a := Acquire(t, port);
        case Holding => var choice := PickNode(t); a := Pick(t, choice);
        case Picked => var sent := OrderOpen(t); a := SendOpen(t, sent);
      }
    }

    method PerformVia(t: Tid, pc: Pc) returns (ghost a: Action)
      requires Valid() && TaskAt(t, pc)
      requires ViaPc(pc)
      modifies Parts()
      ensures Did(a) && Actor(a) == Some(t) && Moved(t)
    {
      match pc {
        case OpenSent => var now: int := *; InsertViaNode(t, now); a := InsertVia(t, now);
        case InsertedVia => IncrementTunnels(t); a := Count(t);
        case CountedVia => PublishOpenedVia(t); a := AnnounceVia(t);
        case AnnouncedVia => var sent := AnswerVia(t); a := AckVia(t, sent);
        case ServingVia => StopVia(t); a := LeaveVia(t);
        case LeavingVia => var sent := OrderClose(t); a := SendClose(t, sent);
        case CloseSent => DecrementTunnels(t); a := Uncount(t);
      }
    }

    method PerformDirect(t: Tid, pc: Pc) returns (ghost a: Action)
      requires Valid() && TaskAt(t, pc)
      requires pc.DirectStart? || pc.Bound? || pc.AckedDirect? || pc.InsertedDirect? || pc.ServingDirect?
      modifies Parts()
      ensures Did(a) && Actor(a) == Some(t) && Moved(t)
    {
      match pc {
        case DirectStart => var ok := BindPort(t); a := Bind(t, ok);
        case Bound => var sent := AnswerDirect(t); a := AckDirect(t, sent);
        case AckedDirect => var now: int := *; InsertDirectly(t, now); a := InsertDirect(t, now);
        case InsertedDirect => PublishOpenedDirect(t); a := AnnounceDirect(t);
        case ServingDirect => StopDirect(t); a := LeaveDirect(t);
      }
    }

    method PerformCleanUp(t: Tid, pc: Pc) returns (ghost a: Action)
      requires Valid() && TaskAt(t, pc)
      requires pc.Returned? || pc.Failed? || pc.Removed? || pc.Archived? || pc.ClosedOut? || pc.Unlisted?
      modifies Parts()
      ensures Did(a) && Actor(a) == Some(t) && Moved(t)
    {
      match pc {
        case Returned => var _ := RemoveTunnel(t); a := Remove(t);
        case Failed => var _ := RemoveTunnel(t); a := Remove(t);
        case Removed => TakenAtHand(t); var now: int := *; RecordTunnel(t, now); a := Archive(t, now);
        case Archived => PublishClosed(t); a := AnnounceClosed(t);
        case ClosedOut => ReleasePort(t); a := Release(t);
        case Unlisted => ReleasePort(t); a := Release(t);
      }
    }

    /** A session that has removed its tunnel has the entry at hand. */
    lemma TakenAtHand(t: Tid)
      requires Valid() && TaskAt(t, Removed)
      ensures tasks[t].taken.Some?
    {
      ReachedLog(cfg, trace, View(), t);
      assert SessionOk(View(), t, tasks[t]);
    }

    /** The path a session is on shows in its phase. */
    lemma OnPath(t: Tid)
      requires Valid() && t in tasks
      ensures NotViaPc(tasks[t].pc) ==> !tasks[t].via
      ensures ViaPc(tasks[t].pc) ==> tasks[t].via
    {
      ReachedLog(cfg, trace, View(), t);
      assert SessionOk(View(), t, tasks[t]);
    }

    /** CLI task `t` waits; the others may do anything meanwhile. */
    method Await(t: Tid)
      requires Valid() && t in tasks
      modifies Parts()
      ensures Valid() && old(trace) <= trace
      ensures old(tasks).Keys <= tasks.Keys && tasks[t] == old(tasks)[t]
    {
      var steps: nat := *;
      while steps > 0
        invariant Valid() && old(trace) <= trace
        invariant old(tasks).Keys <= tasks.Keys && tasks[t] == old(tasks)[t]
      {
        steps := steps - 1;
        var turn: Turn := *;
        if turn != OfCli(t) && Possible(turn) {
          ghost var _ := Perform(turn);
        }
      }
    }

    /** Node task `n` waits; the others may do anything meanwhile. */
    method AwaitNode(n: Nid)
      requires Valid() && n in streams
      modifies Parts()
      ensures Valid() && old(trace) <= trace
      ensures n in streams && streams[n].pc == old(streams)[n].pc
    {
      var steps: nat := *;
      while steps > 0
        invariant Valid() && old(trace) <= trace
        invariant n in streams && streams[n].pc == old(streams)[n].pc
      {
        steps := steps - 1;
        var turn: Turn := *;
        if turn != OfNode(n) && Possible(turn) {
          ghost var _ := Perform(turn);
        }
      }
    }

    // ---- Whole tasks ----

    /** `handle_cli` up to the port: the token, the device, the assignment. */
    method Admit(t: Tid, reg: Register) returns (ok: bool)
      requires Valid() && t !in tasks
      modifies Parts()
      ensures Valid() && old(tasks).Keys <= tasks.Keys
      ensures TaskAt(t, if ok then Holding else Rejected)
      ensures tasks[t].reg == reg
    {
      Accept(t, reg);
      Await(t);
      CheckToken(t);
      if tasks[t].pc == Rejected {
        return false;
      }
      Await(t);
      var id: nat, now: int := *, *;
      UpsertDevice(t, id, now);
      Await(t);
      var port := AcquirePort(t);
      ok := port.Some?;
    }

    /** What task `t` has done so far, in order, is the script of where it stands. */
    ghost predicate OnScript(t: Tid)
      reads this
    {
      t in tasks && Follows(tasks[t], Own(trace, t))
    }

    lemma StaysOnScript(t: Tid)
      requires Valid() && t in tasks
      ensures OnScript(t)
    {
      SessionScript(cfg, trace, View(), t);
    }

    /**
     `handle_cli`: whatever happens around it, it returns rejected, or having done its whole
     script, whose last step gives the port back; its tunnel is out of the table, and the log
     tells its whole life or nothing.
     */
    method HandleCli(t: Tid, reg: Register)
      requires Valid() && t !in tasks
      modifies Parts()
      ensures Valid() && old(tasks).Keys <= tasks.Keys
      ensures TaskAt(t, Rejected) || TaskAt(t, EndedClosed) || TaskAt(t, EndedUnlisted)
      ensures tasks[t].reg == reg && t !in activeTunnels
      ensures Of(published, t) == Trace(t, tasks[t]) && OnScript(t)
      ensures tasks[t].pc != Rejected ==> Own(trace, t) != [] && Own(trace, t)[|Own(trace, t)| - 1] == Releases
    {
      var ok := Admit(t, reg);
      if ok {
        Await(t);
        Serve(t);
        Await(t);
        CleanUp(t);
      }
      Outcome(t);
      StaysOnScript(t);
      LastReleases(tasks[t], Own(trace, t));
    }

    static lemma LastReleases(c: Session, done: seq<Kind>)
      requires Follows(c, done) && (c.pc == EndedClosed || c.pc == EndedUnlisted || c.pc == Rejected)
      ensures c.pc != Rejected ==> done != [] && done[|done| - 1] == Releases
    {
    }

    /** What the table and the log say about a task is settled by where it stands. */
    lemma Outcome(t: Tid)
      requires Valid() && t in tasks
      ensures t in activeTunnels <==> Listed(tasks[t].pc)
      ensures Of(published, t) == Trace(t, tasks[t])
    {
      ReachedLog(cfg, trace, View(), t);
      assert EntryExact(View(), t);
    }

    /** Serves the tunnel through a node if one can be picked, else on the server itself. */
    method Serve(t: Tid)
      requires Valid() && TaskAt(t, Holding)
      modifies Parts()
      ensures t in tasks && tasks[t].reg == old(tasks)[t].reg
      ensures Valid() && old(tasks).Keys <= tasks.Keys
      ensures TaskAt(t, Returned) || TaskAt(t, Failed)
    {
      var node := PickNode(t);
      Await(t);
      if node.Some? {
        ServeViaNode(t);
      } else {
        ServeDirect(t);
      }
    }

    /** `serve_cli_direct`. */
    method ServeDirect(t: Tid)
      requires Valid() && TaskAt(t, DirectStart)
      modifies Parts()
      ensures t in tasks && tasks[t].reg == old(tasks)[t].reg
      ensures Valid() && old(tasks).Keys <= tasks.Keys
      ensures (TaskAt(t, Returned) || TaskAt(t, Failed)) && OnScript(t) && !tasks[t].via
    {
      var bound := BindPort(t);
      if !bound {
        OnPath(t);
        StaysOnScript(t);
        return;
      }
      Await(t);
      var sent := AnswerDirect(t);
      if !sent.Delivered? {
        OnPath(t);
        StaysOnScript(t);
        return;
      }
      Await(t);
      var now: int := *;
      InsertDirectly(t, now);
      Await(t);
      PublishOpenedDirect(t);
      Await(t);
      OnPath(t);
      StopDirect(t);
      StaysOnScript(t);
    }

    /** `serve_cli_via_node`, falling back to the direct path when the node cannot be reached. */
    method ServeViaNode(t: Tid)
      requires Valid() && TaskAt(t, Picked)
      modifies Parts()
      ensures t in tasks && tasks[t].reg == old(tasks)[t].reg
      ensures Valid() && old(tasks).Keys <= tasks.Keys
      ensures (TaskAt(t, Returned) || TaskAt(t, Failed)) && OnScript(t)
    {
      var sent := OrderOpen(t);
      Await(t);
      if !sent.Delivered? {
        ServeDirect(t);
        return;
      }
      var now: int := *;
      InsertViaNode(t, now);
      Await(t);
      IncrementTunnels(t);
      Await(t);
      PublishOpenedVia(t);
      Await(t);
      var _ := AnswerVia(t);
      Await(t);
      ServeUntilClosed(t);
    }

    /** The read loop of the via-node path, and what follows it. */
    method ServeUntilClosed(t: Tid)
      requires Valid() && TaskAt(t, ServingVia)
      modifies Parts()
      ensures t in tasks && tasks[t].reg == old(tasks)[t].reg
      ensures Valid() && old(tasks).Keys <= tasks.Keys
      ensures TaskAt(t, Returned) && OnScript(t) && tasks[t].via
    {
      StopVia(t);
      Await(t);
      var _ := OrderClose(t);
      Await(t);
      OnPath(t);
      DecrementTunnels(t);
      StaysOnScript(t);
    }

    /** The central clean-up at the end of `handle_cli`. */
    method CleanUp(t: Tid)
      requires Valid() && (TaskAt(t, Returned) || TaskAt(t, Failed))
      modifies Parts()
      ensures t in tasks && tasks[t].reg == old(tasks)[t].reg
      ensures Valid() && old(tasks).Keys <= tasks.Keys
      ensures (TaskAt(t, EndedClosed) || TaskAt(t, EndedUnlisted)) && OnScript(t)
    {
      var removed := RemoveTunnel(t);
      Await(t);
      if removed.Some? {
        var now: int := *;
        RecordTunnel(t, now);
        Await(t);
        PublishClosed(t);
        Await(t);
      }
      ReleasePort(t);
      StaysOnScript(t);
    }

    /**
     `handle_node`: a node with a valid token is registered, acknowledged, announced, and
     served until its channel closes; in the end it is out of the registry, whatever failed.
     The reports it reads meanwhile belong to the visitors' side.
     */
    method HandleNode(n: Nid, token: string, name: string, host: string, dataPort: Port) returns (valid: bool)
      requires Valid() && n !in streams
      modifies Parts()
      ensures Valid() && old(trace) <= trace
      ensures valid <==> token in cfg.tokens
      ensures if valid then NodeTaskAt(n, Ended) && n !in nodeManager.nodes else trace == old(trace)
      ensures valid ==> NodeOwn(trace, n) == NODE_SERVED || NodeOwn(trace, n) == NODE_UNANSWERED
    {
      valid := token in cfg.tokens;
      if !valid {
        return;
      }
      RegisterNode(n, name, host, dataPort);
      AwaitNode(n);
      var sent := AnswerNode(n);
      AwaitNode(n);
      if sent.Delivered? {
        ServeNode(n);
      } else {
        RemoveUnacked(n);
      }
      LeftRegistry(cfg, trace, View(), n);
      NodeScript(cfg, trace, View(), n);
    }

    /** The node from its acknowledgement to the end of its channel. */
    method ServeNode(n: Nid)
      requires Valid() && NodeTaskAt(n, Acked)
      modifies Parts()
      ensures Valid() && old(trace) <= trace && NodeTaskAt(n, Ended)
      ensures NodeOwn(trace, n) == NODE_SERVED
    {
      PublishNode(n);
      AwaitNode(n);
      RemoveNode(n);
      AwaitNode(n);
      NodeScript(cfg, trace, View(), n);
      ghost var before := trace;
      PublishNodeLeft(n);
      NodeEnds(before, n);
    }

    static lemma NodeEnds(before: seq<Action>, n: Nid)
      requires NodeOwn(before, n) == NODE_SERVED[..4]
      ensures NodeOwn(before + [Farewell(n)], n) == NODE_SERVED
    {
      assert (before + [Farewell(n)])[..|before|] == before;
      assert NODE_SERVED[..4] + [BidsFarewell] == NODE_SERVED;
    }
  }
}
