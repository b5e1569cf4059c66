/**
 The server's mutexes: in which order the handlers take them
 (crates/server/src/control.rs, crates/server/src/node_manager.rs, crates/server/src/api/).

 A handler is the sequence of its lock operations. `async` mutexes are not reentrant, so a
 task that asks for a lock waits while any task, itself included, holds it.
 */
module Locks {
  import opened Wrappers
  import Control
  import Nodes

  type Tid = Control.Tid
  type Nid = Nodes.Nid

  datatype Lock =
    | Pool | Registry | Tunnels | Pending | DeviceList | TunnelLog | ConnectionLog | ApiTokens
    | NodeWriter(n: Nid) | CliWriter(t: Tid)

  /** A stream writer; the other locks guard a table. */
  predicate Writer(l: Lock) {
    l.NodeWriter? || l.CliWriter?
  }

  datatype Op = Acquire(l: Lock) | Release(l: Lock)

  datatype Task = Task(held: set<Lock>, todo: seq<Op>)

  /** May `l` be asked for while `held` is held: nothing, or at most one writer before a table lock. */
  predicate MayAsk(held: set<Lock>, l: Lock) {
    held == {} || (!Writer(l) && forall h | h in held :: Writer(h))
  }

  /** A task follows the order to its end, and ends with nothing held. */
  predicate Orderly(held: set<Lock>, todo: seq<Op>)
    decreases |todo|
  {
    if todo == [] then held == {}
    else match todo[0]
      case Acquire(l) => MayAsk(held, l) && Orderly(held + {l}, todo[1..])
      case Release(l) => l in held && Orderly(held - {l}, todo[1..])
  }

  // ---- The handlers ----

  function Section(l: Lock): seq<Op> {
    [Acquire(l), Release(l)]
  }

  /** The accept loop: `pending` once per visitor, twice when its notice cannot be sent. */
  function ServeVisitors(failed: seq<bool>): seq<Op> {
    if failed == [] then []
    else Section(Pending) + (if failed[0] then Section(Pending) else []) + ServeVisitors(failed[1..])
  }

  function ServeDirect(failed: seq<bool>): seq<Op> {
    Section(Tunnels) + ServeVisitors(failed)
  }

  datatype Path =
    | Refused | DirectFailed | Direct(failed: seq<bool>)
    | Via(n: Nid)
    | FallBackFailed(m: Nid) | FallBack(m: Nid, failed: seq<bool>)

  /** `serve_cli_direct` or `serve_cli_via_node`; the fall-back keeps the CLI's writer throughout. */
  function Serve(t: Tid, path: Path): seq<Op> {
    match path
    case Refused => []
    case DirectFailed => []
    case Direct(failed) => ServeDirect(failed)
    case Via(n) =>
      Section(NodeWriter(n)) + Section(Tunnels) + Section(Registry) + Section(CliWriter(t))
      + Section(NodeWriter(n)) + Section(Registry)
    case FallBackFailed(n) => Section(NodeWriter(n)) + [Acquire(CliWriter(t)), Release(CliWriter(t))]
    case FallBack(n, failed) =>
      Section(NodeWriter(n)) + ([Acquire(CliWriter(t))] + ServeDirect(failed) + [Release(CliWriter(t))])
  }

  function HandleCli(t: Tid, hostKnown: bool, path: Path): seq<Op> {
    (if hostKnown then Section(DeviceList) else []) + Section(Pool)
    + if path.Refused? then []
      else Section(Registry) + Serve(t, path) + Section(Tunnels)
           + (if path.DirectFailed? || path.FallBackFailed? then [] else Section(TunnelLog))
           + Section(Pool)
  }

  /** One report: read the route, then write to the CLI it names, if any. */
  function Forwards(routes: seq<Option<Tid>>): seq<Op> {
    if routes == [] then []
    else Section(Tunnels) + Writes(routes[0]) + Forwards(routes[1..])
  }

  function Writes(route: Option<Tid>): seq<Op> {
    if route.Some? then Section(CliWriter(route.value)) else []
  }

  /** A node session; when the acknowledgement fails the registry is cleaned under the node's writer. */
  function HandleNode(n: Nid, acked: bool, routes: seq<Option<Tid>>): seq<Op> {
    Section(Registry)
    + if acked then Section(NodeWriter(n)) + Forwards(routes) + Section(Registry)
      else [Acquire(NodeWriter(n)), Acquire(Registry), Release(Registry), Release(NodeWriter(n))]
  }

  /** Every task the server runs. */
  datatype Handler =
    | Cli(t: Tid, hostKnown: bool, path: Path)
    | Node(n: Nid, acked: bool, routes: seq<Option<Tid>>)
    | VisitorTask(spliced: bool)
    | DataConn
    | ListTunnels | CloseTunnel | ListNodes | ListDevices | ListTunnelLog | ListConnectionLog
    | ListTokens | CreateToken(valid: bool) | RevokeToken

  function Script(h: Handler): seq<Op> {
    match h
    case Cli(t, hostKnown, path) => HandleCli(t, hostKnown, path)
    case Node(n, acked, routes) => HandleNode(n, acked, routes)
    case VisitorTask(spliced) => if spliced then Section(ConnectionLog) else Section(Pending)
    case DataConn => Section(Pending)
    case ListTunnels => Section(Tunnels)
    case CloseTunnel => Section(Tunnels)
    case ListNodes => Section(Registry)
    case ListDevices => Section(Tunnels) + Section(DeviceList)
    case ListTunnelLog => Section(TunnelLog)
    case ListConnectionLog => Section(ConnectionLog)
    case ListTokens => Section(ApiTokens)
    case CreateToken(valid) => if valid then Section(ApiTokens) else []
    case RevokeToken => Section(ApiTokens)
  }

  /** A piece of a script that can be run while `held` is held and gives everything back. */
  predicate Piece(held: set<Lock>, ops: seq<Op>, after: set<Lock>)
    decreases |ops|
  {
    if ops == [] then held == after
    else match ops[0]
      case Acquire(l) => MayAsk(held, l) && Piece(held + {l}, ops[1..], after)
      case Release(l) => l in held && Piece(held - {l}, ops[1..], after)
  }

  lemma {:induction false} Join(held: set<Lock>, a: seq<Op>, mid: set<Lock>, b: seq<Op>, after: set<Lock>)
    requires Piece(held, a, mid) && Piece(mid, b, after)
    ensures Piece(held, a + b, after)
    decreases |a|
  {
    if a == [] {
      assert a + b == b;
    } else {
      assert (a + b)[1..] == a[1..] + b;
      Join(if a[0].Acquire? then held + {a[0].l} else held - {a[0].l}, a[1..], mid, b, after);
    }
  }

  lemma {:induction false} PieceOrderly(held: set<Lock>, ops: seq<Op>)
    ensures Orderly(held, ops) <==> Piece(held, ops, {})
    decreases |ops|
  {
    if ops != [] {
      PieceOrderly(if ops[0].Acquire? then held + {ops[0].l} else held - {ops[0].l}, ops[1..]);
    }
  }

  lemma SectionPiece(held: set<Lock>, l: Lock)
    requires MayAsk(held, l) && l !in held
    ensures Piece(held, Section(l), held)
  {
    assert Section(l)[1..] == [Release(l)];
    assert [Release(l)][1..] == [];
    assert held + {l} - {l} == held;
  }

  lemma {:induction false} VisitorsPiece(held: set<Lock>, failed: seq<bool>)
    requires forall h | h in held :: Writer(h)
    ensures Piece(held, ServeVisitors(failed), held)
    decreases |failed|
  {
    if failed != [] {
      SectionPiece(held, Pending);
      var more := if failed[0] then Section(Pending) else [];
      Join(held, Section(Pending), held, more, held);
      VisitorsPiece(held, failed[1..]);
      Join(held, Section(Pending) + more, held, ServeVisitors(failed[1..]), held);
    }
  }

  lemma DirectPiece(held: set<Lock>, failed: seq<bool>)
    requires forall h | h in held :: Writer(h)
    ensures Piece(held, ServeDirect(failed), held)
  {
    SectionPiece(held, Tunnels);
    VisitorsPiece(held, failed);
    Join(held, Section(Tunnels), held, ServeVisitors(failed), held);
  }

  /** Two sections, or any two pieces, one after the other with nothing held. */
  lemma Also(a: seq<Op>, b: seq<Op>)
    requires Piece({}, a, {}) && Piece({}, b, {})
    ensures Piece({}, a + b, {})
  {
    Join({}, a, {}, b, {});
  }

  /** Serving with the CLI's writer held all along. */
  lemma UnderWriter(t: Tid, failed: seq<bool>)
    ensures Piece({}, [Acquire(CliWriter(t))] + ServeDirect(failed) + [Release(CliWriter(t))], {})
  {
    var w := {CliWriter(t)};
    assert [Acquire(CliWriter(t))][1..] == [] && [Release(CliWriter(t))][1..] == [];
    assert Piece({} + {CliWriter(t)}, [], w) && Piece(w - {CliWriter(t)}, [], {});
    DirectPiece(w, failed);
    Join({}, [Acquire(CliWriter(t))], w, ServeDirect(failed), w);
    Join({}, [Acquire(CliWriter(t))] + ServeDirect(failed), w, [Release(CliWriter(t))], {});
  }

  lemma ServePiece(t: Tid, path: Path)
    ensures Piece({}, Serve(t, path), {})
  {
    forall l ensures Piece({}, Section(l), {}) {
      SectionPiece({}, l);
    }
    match path {
      case Refused =>
      case DirectFailed =>
      case Direct(failed) =>
        DirectPiece({}, failed);
      case Via(n) =>
        var s := Section(NodeWriter(n));
        Also(s, Section(Tunnels));
        Also(s + Section(Tunnels), Section(Registry));
        Also(s + Section(Tunnels) + Section(Registry), Section(CliWriter(t)));
        Also(s + Section(Tunnels) + Section(Registry) + Section(CliWriter(t)), s);
        Also(s + Section(Tunnels) + Section(Registry) + Section(CliWriter(t)) + s, Section(Registry));
      case FallBackFailed(n) =>
        Also(Section(NodeWriter(n)), Section(CliWriter(t)));
      case FallBack(n, failed) =>
        UnderWriter(t, failed);
        Also(Section(NodeWriter(n)), [Acquire(CliWriter(t))] + ServeDirect(failed) + [Release(CliWriter(t))]);
    }
  }

  lemma CliPiece(t: Tid, hostKnown: bool, path: Path)
    ensures Piece({}, HandleCli(t, hostKnown, path), {})
  {
    forall l ensures Piece({}, Section(l), {}) {
      SectionPiece({}, l);
    }
    var first := if hostKnown then Section(DeviceList) else [];
    Also(first, Section(Pool));
    if path.Refused? {
      Also(first + Section(Pool), []);
    } else {
      ServePiece(t, path);
      var log := if path.DirectFailed? || path.FallBackFailed? then [] else Section(TunnelLog);
      Also(Section(Registry), Serve(t, path));
      Also(Section(Registry) + Serve(t, path), Section(Tunnels));
      Also(Section(Registry) + Serve(t, path) + Section(Tunnels), log);
      Also(Section(Registry) + Serve(t, path) + Section(Tunnels) + log, Section(Pool));
      Also(first + Section(Pool), Section(Registry) + Serve(t, path) + Section(Tunnels) + log + Section(Pool));
    }
  }

  lemma {:induction false} ForwardsPiece(routes: seq<Option<Tid>>)
    ensures Piece({}, Forwards(routes), {})
    decreases |routes|
  {
    if routes != [] {
      forall l ensures Piece({}, Section(l), {}) {
        SectionPiece({}, l);
      }
      Also(Section(Tunnels), Writes(routes[0]));
      ForwardsPiece(routes[1..]);
      Also(Section(Tunnels) + Writes(routes[0]), Forwards(routes[1..]));
    }
  }

  lemma NodePiece(n: Nid, acked: bool, routes: seq<Option<Tid>>)
    ensures Piece({}, HandleNode(n, acked, routes), {})
  {
    forall l ensures Piece({}, Section(l), {}) {
      SectionPiece({}, l);
    }
    if acked {
      ForwardsPiece(routes);
      Also(Section(NodeWriter(n)), Forwards(routes));
      Also(Section(NodeWriter(n)) + Forwards(routes), Section(Registry));
      Also(Section(Registry), Section(NodeWriter(n)) + Forwards(routes) + Section(Registry));
    } else {
      var w := {NodeWriter(n)};
      assert [Acquire(NodeWriter(n))][1..] == [] && [Release(NodeWriter(n))][1..] == [];
      assert Piece({} + {NodeWriter(n)}, [], w) && Piece(w - {NodeWriter(n)}, [], {});
      SectionPiece(w, Registry);
      Join({}, [Acquire(NodeWriter(n))], w, Section(Registry), w);
      Join({}, [Acquire(NodeWriter(n))] + Section(Registry), w, [Release(NodeWriter(n))], {});
      var nested := [Acquire(NodeWriter(n)), Acquire(Registry), Release(Registry), Release(NodeWriter(n))];
      assert nested == [Acquire(NodeWriter(n))] + Section(Registry) + [Release(NodeWriter(n))];
      Also(Section(Registry), nested);
    }
  }

  /** Every handler follows the order: a writer alone, or one writer and then one table. */
  lemma HandlersOrderly(h: Handler)
    ensures Orderly({}, Script(h))
  {
    forall l ensures Piece({}, Section(l), {}) {
      SectionPiece({}, l);
    }
    match h {
      case Cli(t, hostKnown, path) => CliPiece(t, hostKnown, path);
      case Node(n, acked, routes) => NodePiece(n, acked, routes);
      case ListDevices => Also(Section(Tunnels), Section(DeviceList));
      case _ =>
    }
    PieceOrderly({}, Script(h));
  }

  // ---- Any number of tasks ----

  type Tasks = map<nat, Task>

  ghost predicate Free(tasks: Tasks, l: Lock) {
    forall i | i in tasks :: l !in tasks[i].held
  }

  /** A task starts, or one task takes its next operation; a lock is granted only when free. */
  ghost predicate Next(tasks: Tasks, tasks': Tasks) {
    || (exists i: nat, h: Handler :: i !in tasks && tasks' == tasks[i := Task({}, Script(h))])
    || (exists i: nat :: i in tasks && CanRun(tasks, i) && tasks' == tasks[i := Ran(tasks[i])])
  }

  ghost predicate CanRun(tasks: Tasks, i: nat)
    requires i in tasks
  {
    tasks[i].todo != [] && (tasks[i].todo[0].Acquire? ==> Free(tasks, tasks[i].todo[0].l))
  }

  function Last(states: seq<Tasks>): Tasks
    requires states != []
  {
    states[|states| - 1]
  }

  ghost predicate Able(tasks: Tasks, i: nat) {
    i in tasks && CanRun(tasks, i)
  }

  function Ran(k: Task): Task
    requires k.todo != []
  {
    match k.todo[0]
    case Acquire(l) => Task(k.held + {l}, k.todo[1..])
    case Release(l) => Task(k.held - {l}, k.todo[1..])
  }

  ghost predicate AllOrderly(tasks: Tasks) {
    forall i | i in tasks :: Orderly(tasks[i].held, tasks[i].todo)
  }

  lemma OrderlyStep(tasks: Tasks, tasks': Tasks)
    requires AllOrderly(tasks) && Next(tasks, tasks')
    ensures AllOrderly(tasks')
  {
    forall i | i in tasks' ensures Orderly(tasks'[i].held, tasks'[i].todo) {
      if i in tasks && tasks'[i] == tasks[i] {
      } else if i in tasks {
      } else {
        var h :| tasks'[i] == Task({}, Script(h));
        HandlersOrderly(h);
      }
    }
  }

  ghost predicate IsRun(states: seq<Tasks>) {
    && states != [] && states[0] == map[]
    && forall i | 0 <= i < |states| - 1 :: Next(states[i], states[i + 1])
  }

  lemma {:induction false} OrderlyRun(states: seq<Tasks>)
    requires IsRun(states)
    ensures AllOrderly(Last(states))
    decreases |states|
  {
    if |states| > 1 {
      var before := states[..|states| - 1];
      assert forall i | 0 <= i < |before| - 1 :: Next(before[i], before[i + 1]) by {
        forall i | 0 <= i < |before| - 1 ensures Next(before[i], before[i + 1]) {
          assert Next(states[i], states[i + 1]);
        }
      }
      OrderlyRun(before);
      assert Next(states[|states| - 2], states[|states| - 2 + 1]);
      OrderlyStep(states[|states| - 2], states[|states| - 1]);
    }
  }

  /** Task `i` waits for a lock that task `j` holds. */
  ghost predicate WaitsFor(tasks: Tasks, i: nat, j: nat) {
    && i in tasks && j in tasks
    && tasks[i].todo != [] && tasks[i].todo[0].Acquire?
    && tasks[i].todo[0].l in tasks[j].held
  }

  /** Nobody waits for itself. */
  lemma NoSelfWait(tasks: Tasks, i: nat, j: nat)
    requires AllOrderly(tasks) && WaitsFor(tasks, i, j)
    ensures i != j
  {
    assert Orderly(tasks[i].held, tasks[i].todo);
  }

  /** Whoever stands at the end of two waits is about to release something: it waits for nobody. */
  lemma SecondWaitEnds(tasks: Tasks, i: nat, j: nat, k: nat)
    requires AllOrderly(tasks) && WaitsFor(tasks, i, j) && WaitsFor(tasks, j, k)
    ensures tasks[k].todo != [] && tasks[k].todo[0].Release?
  {
    assert Orderly(tasks[j].held, tasks[j].todo);
    assert Orderly(tasks[k].held, tasks[k].todo);
  }

  /**
   No lock cycle. In every reachable state, with any number of handlers, a chain of tasks
   each waiting for the next has at most two waits and never comes back to where it started.
   */
  lemma NoLockCycle(states: seq<Tasks>, chain: seq<nat>)
    requires IsRun(states) && |chain| >= 2
    requires forall m | 0 <= m < |chain| - 1 :: WaitsFor(Last(states), chain[m], chain[m + 1])
    ensures chain[0] != chain[|chain| - 1]
    ensures |chain| <= 3
  {
    OrderlyRun(states);
    var tasks := Last(states);
    assert WaitsFor(tasks, chain[0], chain[0 + 1]);
    if |chain| == 2 {
      NoSelfWait(tasks, chain[0], chain[1]);
    } else {
      assert WaitsFor(tasks, chain[1], chain[1 + 1]);
      SecondWaitEnds(tasks, chain[0], chain[1], chain[2]);
      assert |chain| > 3 ==> WaitsFor(tasks, chain[2], chain[2 + 1]);
    }
  }

  /** While some task is not done, some task can go on. */
  lemma SomeTaskGoesOn(states: seq<Tasks>, i: nat)
    requires IsRun(states) && i in Last(states) && Last(states)[i].todo != []
    ensures exists j: nat :: Able(Last(states), j)
  {
    OrderlyRun(states);
    var tasks := Last(states);
    if !CanRun(tasks, i) {
      var j := Holder(tasks, i);
      if !CanRun(tasks, j) {
        var k := Holder(tasks, j);
        SecondWaitEnds(tasks, i, j, k);
        assert Able(tasks, k);
      } else {
        assert Able(tasks, j);
      }
    } else {
      assert Able(tasks, i);
    }
  }

  lemma Holder(tasks: Tasks, i: nat) returns (j: nat)
    requires AllOrderly(tasks) && i in tasks && tasks[i].todo != [] && !CanRun(tasks, i)
    ensures WaitsFor(tasks, i, j) && tasks[j].todo != []
  {
    j :| j in tasks && tasks[i].todo[0].l in tasks[j].held;
    assert Orderly(tasks[j].held, tasks[j].todo);
  }
}
