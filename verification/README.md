# Borehole: a verified model of the tunnel control plane

Borehole exposes a local TCP port on a public server, directly or through an edge node.
A CLI keeps one control connection to the server; visitors arrive on a public port and are
paired with data connections that the CLI opens on demand. This project models that
protocol in Dafny 4.11 and proves what holds in every run of it, for any number of CLIs,
nodes and visitors, interleaved at every lock acquisition, message and event.

## How it is built

**The control plane.** `Control` is a transition system: a `State` with the port pool, the
sessions, the tunnel table, the node registry, the nodes' control streams, the devices, the
event log and the history; 28 kinds of step; `Enabled` says when a step may happen and
`Apply` what it does. What the environment decides (which port, which node, whether a write
fails, what the clock says) is an argument of the step. A session is named by the UUID of its
tunnel. UUIDs are fresh, control streams are FIFO, a writer that has failed fails again, and
a failed write may or may not have reached its peer. The invariant is proved part by part in
`ControlShape` (sessions, table, ports), `ControlCounts` (load counters), `ControlLog`
(events, history), `ControlOrders` (order streams) and `ControlDevices`; `ControlInvariant`
puts the parts together and states what follows for every run from the empty server.
`ControlScripts` says in which order a session does what it does.

**The whole system.** `World` adds visitors, both `pending` tables, data sockets, the CLIs'
streams, the nodes' reports and their forwarding: 17 kinds of step, one of which is any step
of the control plane. Data sockets are opened by CLIs only, and only for an id that was sent
to the CLI; isolation rests on this. `WorldInvariant` keeps who may serve whom and where each sender is;
`WorldTheorems` states isolation, conservation and quiescence. `FirstFrames` and `Replica`
are about what the peers and the dashboard see.

**The programs.** The stateful parts take the form of the source. `Ports`, `Nodes`,
`DeviceTable`, `History` and `Replica` hold the classes behind the shared tables. `Server`
holds one object with one method per critical section of `handle_cli`, its two serving paths
and `handle_node`; `Gateway` does the same for the visitors' side, and `NodeAgent` for an
edge node's session. The contract `Did(a)` of a critical section says that the call was
exactly step `a` of the transition system and that the object is again where its trace leads;
`DidApplies` spells that out. The handlers are built from the critical sections:
`Server.Server.HandleCli` and `HandleNode`, `Gateway.Gateway.ServeTunnel`, `ServeVisitor`,
`HandleDataConn`, `ServeAtNode` and `ForwardVisitor`. Between two critical sections of one
handler `Await` lets all others take any steps of their own through the same methods; the
lemmas `Gateway.VisitorGuarded`, `SocketGuarded`, `ListenerGuarded` and `JobGuarded` show
that such steps leave a handler what it relies on.

**The wire and the login callback.** `Utf8`, `Json` and `Wire` print and parse control
messages (section 7 of RFC 8259 for strings); `Callback` is the server's percent-encoding
against the CLI's decoder (sections 2.1 and 2.3 of RFC 3986); `Html` is the escaping of the
login form. `Locks` describes in which order the handlers take the server's mutexes.

## What turned out not to hold

- A node gives up its session unless the first frame it reads is `NodeRegistered`
  (crates/node/src/main.rs:125-134), but the server enters the node in the registry before
  it writes that frame (crates/server/src/control.rs:433-447). A session may order the node
  in between. `FirstFrames.AckNotFirst` gives the run, `FirstFrames.AckFirstIff` the exact
  condition.
- A CLI likewise expects `Registered` first (crates/cli/src/tunnel.rs:76-81), but a tunnel
  served by a node enters the table before that frame is written
  (crates/server/src/control.rs:344-380), and a visitor may be forwarded in between: the node
  has been acknowledged, has obeyed its order and reported a visitor.
  `FirstFrames.VerdictNotFirst` is the run, `FirstFrames.VerdictFirstIff` the condition.
- A dashboard row built from an event lacks the device and reads an empty node name as no
  node (web/src/routes/+layout.svelte:47-48), so a converged dashboard can differ from a
  fresh snapshot in these two columns. `Replica.ConvergedYetDifferent` gives a run,
  `Replica.ConvergesExactlyIff` says exactly when it does not.
- The dashboard fetches its snapshot and subscribes side by side, and an event that arrives
  before the fetch is complete is applied to the old store and then overwritten
  (web/src/routes/+layout.svelte:27-35, 63-67). `Replica.LoadOvertaken` is a run in which the
  dashboard was told everything and is still wrong about whether a tunnel is there;
  `Replica.PresenceIff` says exactly for which tunnels it is right. It converges when nothing
  published after the snapshot came before the load.
- A node that opened a tunnel its table still lists would lose the older accept loop
  (crates/node/src/main.rs:207). `NodeAgent.NoOrphanIff` says that this is the only way, and
  `NodeAgent.NodeKeepsNoOrphan` that the server never causes it.
- The redirect appends `?token=` to any callback address, and the CLI splits the request
  target at the first `?`; what follows a `#` is never requested; and an address that no header
  can hold is never redirected to. `Callback.LoginWorksIff`: the login works for every token
  exactly when the address has neither a query nor a fragment of its own and none of the
  characters that a header value excludes.
- The header comment of crates/server/src/control.rs (lines 19 to 23) calls the node path
  dormant and says there is no `OpenTunnel`; the code sends it (lines 326 to 339). The model
  follows the code.

## Model

| member | source | states |
|---|---|---|
| ControlInvariant.PortOwnership | crates/server/src/control.rs:180-240 | in every run the range is the disjoint union of free and held ports, each held port has one holder, and active tunnels have distinct in-range ports, although `release` never checks who held a port |
| ControlInvariant.PortsConserved | crates/server/src/control.rs:180-240 | in every run what is not free is exactly what is held, and free ports and holding sessions add up to the size of the range |
| ControlInvariant.CounterExact | crates/server/src/node_manager.rs:117-130 | in every run a registered node's counter is the number of sessions past increment and before decrement on it, so the saturating decrement never saturates |
| ControlInvariant.LoadBalance | crates/server/src/node_manager.rs:108-122 | from all counters at zero, while no tunnel closes and no node joins, with at most k sessions between pick and increment, counters of nodes of one name stay within k, in-flight tunnels included; nodes may leave |
| ControlInvariant.OrderStream | crates/server/src/control.rs:323-405 | in every prefix of what was written to a node the open tunnels have distinct ports, every close follows its one open, and no tunnel is opened twice |
| ControlInvariant.Lifecycle | crates/server/src/control.rs:215-242 | a tunnel's events are a prefix of opened, closed; closed implies that it has left the table and that exactly one history record of it was ever written, which tells the same ports, protocol, node and start; a rejected or failed session leaves no trace |
| ControlInvariant.DeviceCounts | crates/server/src/api/devices.rs:16-43 | the per-device counts of one listing add up to the tunnels of the snapshot that reported a host, however many steps lie between the two locks |
| ControlInvariant.DirectUnrouted | crates/server/src/control.rs:331-338 | a session on the direct path, the fall-back with its held writer included, is never reachable through a route of the tunnel table |
| ControlInvariant.LeftRegistry | crates/server/src/control.rs:443-473 | in every run a node whose session has ended, or is about to, is not in the registry |
| ControlScripts.SessionScript | crates/server/src/control.rs:160-405 | in every run what a session has done, in order, is the script of where it stands: admission, a serving path with its early exits, clean-up, the release last |
| ControlScripts.NodeScript | crates/server/src/control.rs:409-476 | in every run what a node session has done, in order, is the script of where it stands: registered, acknowledged, announced, removed, announced as left, or removed when the acknowledgement failed |
| ControlInvariant.InvStep | crates/server/src/control.rs:160-476 | every step of the control plane keeps the whole invariant |
| ControlCounts.NeverSaturates | crates/server/src/node_manager.rs:126-130 | whenever a decrement finds its node it finds a positive count |
| ControlCounts.BalancedStep | crates/server/src/node_manager.rs:108-122 | the inductive form of the bound: count plus in-flight of a node is at most any same-named node's count plus k, kept by every opening step |
| ControlOrders.ClosesMatch | crates/server/src/control.rs:397-403 | in a safe stream a close is preceded by an open of the same tunnel and occurs once |
| ControlOrders.OrdersStep | crates/server/src/control.rs:323-405 | every step keeps every node's stream safe and in agreement with the sessions that use it |
| ControlShape.PoolStep | crates/server/src/port_mgr.rs:36-67 | every step keeps the pool exact: free and held ports partition the range |
| ControlLog.LogStep | crates/server/src/control.rs:215-238 | every step keeps log and history in agreement with the phases of all sessions |
| WorldTheorems.PairingIsolation | crates/server/src/control.rs:546-600 | whenever a visitor is spliced to a data socket, on the server or a node, the socket carries its id, was opened by the CLI that owns the tunnel whose port the visitor hit, with that session's local port, and dialled where the visitor waited; neither is paired twice |
| WorldTheorems.PairKept | crates/server/src/control.rs:575-600 | once spliced, a visitor and its socket stay each other's in every continuation |
| WorldTheorems.Rendezvous | crates/server/src/control.rs:557-600 | a waiting visitor's sender is in exactly one place; a server-side `pending` key belongs to a visitor still in hand, waiting or cleaning up; a connection was recorded once if and only if it was spliced and ended |
| WorldTheorems.Quiescence | crates/server/src/control.rs:215-242 | once all sessions and server visitor tasks have ended, every port is free, the tunnel table and the server's `pending` are empty, every counter is zero, and the ids ever opened, ever closed and ever recorded in the history coincide as multisets |
| WorldTheorems.HappenedReached | crates/server/src/control.rs:528-606 | the control plane of every run of the whole system is itself a run of the control plane |
| WorldInvariant.WInvStep | crates/server/src/control.rs:502-652 | every step of the whole system keeps who may serve whom and where each sender is |
| FirstFrames.AckFirstIff | crates/server/src/control.rs:431-447 | the first frame a node can read is its acknowledgement if and only if no order was written to it between its entry into the registry and that acknowledgement |
| FirstFrames.AckNotFirst | crates/node/src/main.rs:125-134 | a concrete run in which an order comes first |
| FirstFrames.VerdictFirstIff | crates/server/src/control.rs:341-380 | the first frame a CLI can read is `Registered` if and only if no visitor was forwarded to it between its entry into the table and that frame |
| FirstFrames.VerdictNotFirst | crates/cli/src/tunnel.rs:75-81 | a concrete run in which a forwarded visitor comes first |
| Replica.Dashboard.HandleEvent | web/src/routes/+layout.svelte:38-60 | an opening replaces the tunnel's row, a closing removes it, other events leave the store alone |
| Replica.Dashboard.Replay | web/src/routes/+layout.svelte:63-67 | replaying a list of events is folding it |
| Replica.Dashboard.Follow | web/src/routes/+layout.svelte:27-67 | events before the load, the load, and events after it: the store has the rows that convergence promises for every tunnel if nothing published after the snapshot came before the load, and knows of every settled tunnel whether it is there exactly under the condition of `PresenceIff` |
| Replica.Snapshot | crates/server/src/api/tunnels.rs:42-60 | whatever the order of the table, exactly one row per entry, with its values |
| Replica.FoldOf | web/src/routes/+layout.svelte:38-60 | after any events a tunnel's rows depend only on the last event about it, or on the snapshot if there is none |
| Replica.Converges | web/src/routes/+layout.svelte:27-67 | snapshot plus every event from any earlier log position: no duplicate ids, right rows, and a difference from the table only for sessions between insert and publish or between remove and publish |
| Replica.ConvergesWhenQuiet | web/src/routes/+layout.svelte:27-67 | with no session in those windows the dashboard shows exactly the table |
| Replica.ConvergesExactlyIff | web/src/routes/+layout.svelte:42-50 | with no session in those windows the dashboard equals a fresh snapshot for a tunnel if and only if the tunnel is gone, its opening was not replayed, or no host was reported and the node name is not empty |
| Replica.ConvergedYetDifferent | web/src/routes/+layout.svelte:42-50 | a run in which no session is in either window and the store still differs from a fresh snapshot |
| Replica.PresenceIff | web/src/routes/+layout.svelte:27-67 | wherever in the log the events applied after the load begin, outside the windows the dashboard is right about a tunnel's presence if and only if it missed none of its events since the snapshot, or both, or was told another one after the load |
| Replica.LoadOvertaken | web/src/routes/+layout.svelte:27-35 | a run in which every event was delivered, one of them before the load, no session is in a window, and the dashboard does not show a tunnel that is there |
| NodeAgent.NodeSession.OpenTunnel | crates/node/src/main.rs:186-208 | a failed bind changes nothing; a bound one spawns a fresh loop and lists it |
| NodeAgent.NodeSession.CloseTunnel | crates/node/src/main.rs:171-176 | a listed loop is delisted and aborted, an unknown id ignored |
| NodeAgent.NodeSession.ServeOrders | crates/node/src/main.rs:150-183 | a whole order stream is obeyed frame by frame |
| NodeAgent.NodeSession.TearDown | crates/node/src/main.rs:142-145 | the table is emptied and every loop in it aborted |
| NodeAgent.NodeSession.RunSession | crates/node/src/main.rs:124-147 | without an acknowledgement first nothing is served; otherwise all orders, then the tear-down |
| NodeAgent.NoOrphanIff | crates/node/src/main.rs:150-208 | after any orders and bind results every running loop is listed if and only if no tunnel was opened while listed |
| NodeAgent.TearDownStopsAll | crates/node/src/main.rs:142-145 | the tear-down stops every loop under exactly the same condition |
| NodeAgent.NodeKeepsNoOrphan | crates/node/src/main.rs:137-208 | for whatever the server writes in any run, however much of it is read and whichever binds succeed: no orphan, only tunnels that are open in the stream, and nothing running after the session |
| Locks.HandlersOrderly | crates/server/src/control.rs:321-339 | every handler of the server and its API holds at most one stream writer and asks for a table lock only with nothing or one writer held |
| Locks.NoLockCycle | crates/server/src/control.rs:502-520 | with any number of handlers, in every reachable state, a chain of waits has at most two links and never closes |
| Locks.SomeTaskGoesOn | crates/server/src/control.rs:438-447 | while some handler is not done some handler can take its next lock operation |
| Ports.PortManager.constructor | crates/server/src/port_mgr.rs:25-31 | every port of the range is free |
| Ports.PortManager.Acquire | crates/server/src/port_mgr.rs:36-44 | any free port, none exactly when the pool is empty, and it leaves the pool |
| Ports.PortManager.AcquireSpecific | crates/server/src/port_mgr.rs:48-58 | the port if it is in range and free, else none and no change |
| Ports.PortManager.Release | crates/server/src/port_mgr.rs:62-67 | an in-range port returns to the pool whoever held it, another is ignored |
| Ports.PortManager.AvailableCount | crates/server/src/port_mgr.rs:72-74 | the free ports and those handed out add up to the range |
| Nodes.NodeManager.Register | crates/server/src/node_manager.rs:78-96 | a fresh id with a zero counter |
| Nodes.NodeManager.Remove | crates/server/src/node_manager.rs:99-101 | the row is gone, other rows stay |
| Nodes.NodeManager.Pick | crates/server/src/node_manager.rs:108-115 | a least-loaded node of the wanted name whatever the iteration order, none exactly when there is no candidate |
| Nodes.NodeManager.IncrementTunnels | crates/server/src/node_manager.rs:118-122 | one more on a known node, nothing on an unknown one |
| Nodes.NodeManager.DecrementTunnels | crates/server/src/node_manager.rs:126-130 | one less, not below zero, on a known node |
| DeviceTable.Devices.Upsert | crates/server/src/control.rs:479-490 | the first record of the host is refreshed, or one appended |
| DeviceTable.UpsertKeeps | crates/server/src/control.rs:479-490 | an upsert makes its host known, forgets none, and keeps hosts distinct |
| DeviceListing.CountByHost | crates/server/src/api/devices.rs:21-30 | for every host the number of snapshot tunnels on it, whatever the iteration order |
| DeviceListing.List | crates/server/src/api/devices.rs:32-42 | one row per device, in order, with that count |
| DeviceListing.TotalConserved | crates/server/src/api/devices.rs:20-42 | distinct hosts that cover the snapshot: the counts add up to its tunnels with a host |
| History.History.RecordTunnel | crates/server/src/history.rs:58-64 | one more entry of the unbounded log, of which the queue stays the last 500 |
| History.History.RecordConnection | crates/server/src/history.rs:67-73 | one more entry of the unbounded log, of which the queue stays the last 1000 |
| History.History.Tunnels | crates/server/src/history.rs:76-79 | the requested page of the retained log |
| History.History.ConnectionsFor | crates/server/src/history.rs:82-95 | the newest entries of the filtered retained log, up to the limit |
| History.PushKeeps | crates/server/src/history.rs:58-64 | evict-then-append on the kept suffix is append on the log |
| History.PageIs | crates/server/src/history.rs:76-79 | the length of a page and its k-th entry, counted from the end of the log |
| History.PagesCover | crates/server/src/history.rs:76-79 | consecutive pages neither skip nor repeat an entry |
| History.FilterReversed | crates/server/src/history.rs:87-94 | filtering and reversing commute |
| Utf8.RoundTrip | crates/server/src/control.rs:663-675 | lossy decoding gives every encoded text back |
| Json.StringRoundTrip | crates/common/src/proto.rs:129-139 | an escaped string parses back, whatever follows it |
| Json.PrintHasNoControls | crates/common/src/proto.rs:127-133 | a printed message contains no control character, a line feed in particular |
| Json.RoundTrip | crates/common/src/proto.rs:129-139 | parsing undoes printing for every list of fields |
| Wire.EnvelopeRoundTrip | crates/common/src/proto.rs:112-125 | the tagged envelope gives every message back |
| Wire.LineRoundTrip | crates/common/src/proto.rs:129-139 | `from_line` undoes `to_line` for every message, with or without the line feed |
| Wire.Stream.ReadFrame | crates/server/src/control.rs:663-675 | reads up to the first line feed, at the end of input the rest, and leaves exactly what follows |
| Wire.FrameConserves | crates/node/src/main.rs:309-321 | for arbitrary bytes, consumed and unread make up the input |
| Wire.FramingRoundTrip | crates/common/src/proto.rs:127-139 | reading as many frames as messages were written yields exactly those messages and leaves exactly the bytes behind them |
| Callback.PercentEncode | crates/server/src/api/auth.rs:194-205 | byte by byte, the unreserved set as it is, everything else as an upper-case escape |
| Callback.PercentDecode | crates/cli/src/main.rs:364-391 | the index loop stays in bounds, pushes bytes only, and computes the recursive decoder |
| Callback.ParseCallback | crates/cli/src/main.rs:345-361 | the second word's query, the last pair of each key winning, none without a token |
| Callback.EncodedClean | crates/server/src/api/auth.rs:194-205 | an encoded value contains unreserved characters and percent signs only |
| Callback.PercentRoundTrip | crates/cli/src/main.rs:364-391 | decoding undoes encoding for every text |
| Callback.CallbackRoundTrip | crates/server/src/api/auth.rs:83-93 | for every token and expiry the CLI reads from the request line what the server put in |
| Callback.CallbackWorksIff | crates/cli/src/main.rs:345-361 | a requested path gives back every token and expiry if and only if it has no query of its own |
| Callback.LoginWorksIff | crates/server/src/api/auth.rs:83-93 | a callback address works for every token and expiry, redirected to by the server and followed as a user agent does, if and only if it has neither a query nor a fragment of its own and no character that a header value excludes |
| Html.EscapeIsOnePass | crates/server/src/api/auth.rs:208-214 | the four replacements equal one pass over the characters |
| Html.EscapeIsSafe | crates/server/src/api/auth.rs:208-214 | the result holds no double quote and no angle bracket |
| Html.EscapeRoundTrip | crates/server/src/api/auth.rs:208-214 | reading the entities back restores every string |
| Server.Server.constructor | crates/server/src/control.rs:108-130 | the empty server is where the empty run leads |
| Server.Server.DidApplies | crates/server/src/control.rs:160-476 | a critical section that did a step was enabled to, and left the state that step makes |
| Server.Server.HandleCli | crates/server/src/control.rs:160-242 | whatever happens around it a session ends rejected, or having done its whole script with the release as its last step; it is out of the table, and its events are complete or none |
| Server.Server.HandleNode | crates/server/src/control.rs:409-476 | a node with a valid token ends out of the registry, having done its whole script or the one of a failed acknowledgement; one without changes nothing |
| Server.Server.ServeNode | crates/server/src/control.rs:448-475 | from the acknowledgement to the end: announced, removed, announced as left, in this order |
| Server.Server.Admit | crates/server/src/control.rs:165-191 | admission ends with a port held, or rejected |
| Server.Server.Serve | crates/server/src/control.rs:204-213 | either path returns to the clean-up |
| Server.Server.ServeDirect | crates/server/src/control.rs:246-307 | the direct path returns with its whole script done, or gives up at one of its two early exits; the session is not on a node |
| Server.Server.ServeViaNode | crates/server/src/control.rs:312-405 | the path through the node returns, or the direct path does after a failed order, having followed the script |
| Server.Server.ServeUntilClosed | crates/server/src/control.rs:382-405 | the path through the node returns with its whole script done, the close order and the decrement last |
| Server.Server.CleanUp | crates/server/src/control.rs:215-241 | the clean-up ends with the release, after removal, record and event or with nothing to remove, having followed the script |
| Server.Server.Await | crates/server/src/control.rs:160-476 | while a session waits the others take any steps; they make a run and leave the session's variables |
| Server.Server.AwaitNode | crates/server/src/control.rs:409-476 | the same for a waiting node session |
| Server.Server.Perform | crates/server/src/control.rs:134-156 | whoever is not done takes exactly one step of its own and moves nobody else |
| Server.Server.CheckToken | crates/server/src/control.rs:168-172 | exactly the token step |
| Server.Server.UpsertDevice | crates/server/src/control.rs:174-178 | exactly the device step |
| Server.Server.AcquirePort | crates/server/src/control.rs:180-191 | exactly the port step |
| Server.Server.PickNode | crates/server/src/control.rs:204-206 | exactly the pick step |
| Server.Server.OrderOpen | crates/server/src/control.rs:323-339 | exactly the open order, or the fall-back when it fails |
| Server.Server.InsertViaNode | crates/server/src/control.rs:341-356 | exactly the insertion, route included |
| Server.Server.IncrementTunnels | crates/server/src/control.rs:357 | exactly the increment, on a node that may have left |
| Server.Server.PublishOpenedVia | crates/server/src/control.rs:358-365 | exactly the opening event |
| Server.Server.AnswerVia | crates/server/src/control.rs:367-380 | exactly the answer, whose failure changes nothing |
| Server.Server.StopVia | crates/server/src/control.rs:382-393 | exactly the end of the read loop |
| Server.Server.OrderClose | crates/server/src/control.rs:395-403 | exactly the close order, whose failure is ignored |
| Server.Server.DecrementTunnels | crates/server/src/control.rs:404 | exactly the decrement |
| Server.Server.BindPort | crates/server/src/control.rs:252-259 | exactly the bind, or the first early exit |
| Server.Server.AnswerDirect | crates/server/src/control.rs:261-268 | exactly the answer, or the second early exit |
| Server.Server.InsertDirectly | crates/server/src/control.rs:270-285 | exactly the insertion, without node and route |
| Server.Server.PublishOpenedDirect | crates/server/src/control.rs:286-294 | exactly the opening event, with an empty node name |
| Server.Server.StopDirect | crates/server/src/control.rs:545-547 | exactly the end of the accept loop |
| Server.Server.RemoveTunnel | crates/server/src/control.rs:218-219 | exactly the removal, and whether there was an entry |
| Server.Server.RecordTunnel | crates/server/src/control.rs:220-234 | exactly the history record |
| Server.Server.PublishClosed | crates/server/src/control.rs:235-237 | exactly the closing event |
| Server.Server.ReleasePort | crates/server/src/control.rs:239 | exactly the release |
| Server.Server.RegisterNode | crates/server/src/control.rs:431-436 | exactly the registration |
| Server.Server.AnswerNode | crates/server/src/control.rs:438-443 | exactly the acknowledgement, or its failure |
| Server.Server.RemoveUnacked | crates/server/src/control.rs:443-446 | exactly the removal of a node that could not be acknowledged |
| Server.Server.PublishNode | crates/server/src/control.rs:449-452 | exactly the arrival event |
| Server.Server.RemoveNode | crates/server/src/control.rs:470 | exactly the removal |
| Server.Server.PublishNodeLeft | crates/server/src/control.rs:471-473 | exactly the departure event |
| Gateway.Gateway.DidApplies | crates/server/src/control.rs:502-652 | a critical section that did a step was enabled to, and left the state that step makes |
| Gateway.VisitorGuarded | crates/server/src/control.rs:575-605 | no step but its own accept loop's and its own task's changes a visitor |
| Gateway.SocketGuarded | crates/server/src/control.rs:632-652 | no step but its own handler's changes a data socket that its handler still has |
| Gateway.ListenerGuarded | crates/server/src/control.rs:540-606 | no step but its own changes what an accept loop relies on: its session serving, and the visitor it has in hand |
| Gateway.JobGuarded | crates/server/src/control.rs:502-524 | no step but its own handler's changes the route a node session is about to use |
| Gateway.Gateway.Perform | crates/server/src/control.rs:528-652 | any enabled step of anybody is done by the critical section it belongs to, and by nothing else |
| Gateway.Gateway.AwaitVisitor | crates/server/src/control.rs:575-605 | while a visitor's task waits the others take any steps that are not its own, and the visitor stays as it is |
| Gateway.Gateway.AwaitSocket | crates/server/src/control.rs:632-652 | the same for the handler of a data socket |
| Gateway.Gateway.AwaitListener | crates/server/src/control.rs:540-606 | the same for an accept loop |
| Gateway.Gateway.AwaitNode | crates/server/src/control.rs:502-524 | the same for a node session that forwards a visitor |
| Gateway.Gateway.ServeVisitor | crates/server/src/control.rs:575-605 | whatever happens around it a visitor's task ends dropped or spliced and over; on the server nothing is left in `pending`, and the archive holds the connection once if and only if it was spliced |
| Gateway.Gateway.HandleDataConn | crates/server/src/control.rs:632-652 | whatever happens around it a data socket ends in the channel of the visitor it announced, or discarded |
| Gateway.Gateway.ServeTunnel | crates/server/src/control.rs:528-606 | the accept loop, left for any reason, leaves its session ready for the clean-up |
| Gateway.Gateway.ServeAtNode | crates/node/src/main.rs:220-263 | one visitor at a node ends with its task spawned, or dropped |
| Gateway.Gateway.ForwardVisitor | crates/server/src/control.rs:502-524 | a report is dropped without a route; with one, exactly one notice goes to the route's CLI with the visitor's id and the node's address, unless the write fails |
| Gateway.Gateway.ServeNext | crates/server/src/control.rs:549-573 | after one visitor the loop is idle again, or has been left because the CLI could not be told |
| Gateway.Gateway.AcceptHere | crates/server/src/control.rs:550-559 | exactly the accept step: a fresh id, registered in `pending` |
| Gateway.Gateway.Notify | crates/server/src/control.rs:561-576 | exactly the notice, written or not |
| Gateway.Gateway.ForgetHere | crates/server/src/control.rs:567-568 | exactly the removal after a failed notice, with the end of the accept loop |
| Gateway.Gateway.GiveUp | crates/server/src/control.rs:566-569 | after a failed notice the loop is left, whatever happens before the id is taken back |
| Gateway.Gateway.Conclude | crates/server/src/control.rs:584-599 | a spliced visitor ends over, and filed on the server, with the socket it was spliced to |
| Gateway.Gateway.Leave | crates/server/src/control.rs:546-547 | exactly the end of the accept loop |
| Gateway.Gateway.Splice | crates/server/src/control.rs:582-586 | exactly the splice with the socket in the channel |
| Gateway.Gateway.TimeOut | crates/server/src/control.rs:582 | exactly the time-out, which drops a socket that lies in the channel |
| Gateway.Gateway.CleanUp | crates/server/src/control.rs:600-603 | exactly the removal from `pending` |
| Gateway.Gateway.Finish | crates/server/src/control.rs:584-586 | exactly the end of the copying |
| Gateway.Gateway.File | crates/server/src/control.rs:587-598 | exactly the connection record: address, start and duration |
| Gateway.Gateway.Take | crates/server/src/control.rs:632-641 | exactly the removal of the announced sender, if there is one |
| Gateway.Gateway.Deliver | crates/server/src/control.rs:641-648 | exactly the delivery, which fails when nobody listens |
| Gateway.Gateway.AcceptAtNode | crates/node/src/main.rs:220-231 | exactly the accept step on a node that was acknowledged and given the order |
| Gateway.Gateway.ReportVisitor | crates/node/src/main.rs:233-253 | exactly the report, written or not |
| Gateway.Gateway.ForgetAtNode | crates/node/src/main.rs:247-252 | exactly the removal after a failed report |
| Gateway.Gateway.Abort | crates/node/src/main.rs:233-253 | exactly the abort of a loop while it reports: the id stays behind, the report may be out |
| Gateway.Gateway.LookUp | crates/server/src/control.rs:502-513 | exactly the look-up of the reported tunnel's route, none for an unknown tunnel |
| Gateway.Gateway.Relay | crates/server/src/control.rs:515-524 | exactly the forwarded notice, whose failure is ignored |
| Gateway.Gateway.Answer | crates/server/src/control.rs:261-268 | exactly an answer to a CLI, written on its stream or not |
| Gateway.Gateway.Advance | crates/server/src/control.rs:160-476 | exactly the given step of the control plane, so that the visitors' side meets any of them; the statements are in the methods of `Server` |
| Gateway.Gateway.Dial | crates/cli/src/tunnel.rs:149-178 | exactly the CLI's dial to where the notice says, with its own local port |

## Left out

- TLS, sockets, `copy_bidirectional` and clocks: a connection is an identity, the 10 second timeout a step that may happen at any moment of the wait, a time stamp an argument.
- The random port choice: any free port.
- Liveness: nothing is said about when a step happens, and an active tunnel through a node need not have a listener, because a failed bind is only logged and a session outlives a dead node.
- When a node stops accepting: a visitor may arrive on any order a node has been given, also after its close, because `abort` is asynchronous; for the same reason nothing is said about an immediate rebind.
- A node's `pending` after the end of everything: `abort` may cut its accept loop between the insertion and the waiting task, so only the server's `pending` is claimed to be empty.
- A report cut in the middle by `abort`, which would spoil the next line as well: a report is written whole, or not at all.
- Subscribers that lag behind the 256 buffered events, and an event source that reconnects by itself: either leaves a gap in the middle of the events, which nothing reloads.
- The dashboard's node list, which is refetched whole on every node event.
- The dashboard's request to close a tunnel: it is one of the reasons for which a serving loop may end.
- `Error` frames to rejected peers, unexpected or malformed frames on open control channels (both ends skip them), and bytes of a control channel that are not UTF-8 (they end the session).
- Failed calls to `accept`, which are retried.
- An acknowledgement that failed holds its stream's writer until the node is removed: a session that picks the node meanwhile would wait, and fail; here it may fail at once.
- FirstFrames.VerdictFirstIff: speaks of `Registered` and `NewConn` only, because a rejected or failed registration is never listed and its `Error` frame meets no other frame.
- Json.RoundTrip: flat objects of strings, null and unsigned integers, which is all the protocol sends; the parser refuses nested values, booleans and other numbers, where serde would skip them in unknown fields.
- The error texts of serde are not modelled; a line that does not decode is `None`.
- Gateway.Gateway.HandleDataConn: it starts where the announced id has been read; `Wire.Stream.ReadFrame` is the reading, and a peer that announces nothing valid is dropped without a step.
- Callback.LoginWorksIff: the address is what follows the authority of the CLI's listener; of a user agent's normalisation of a path only the encoding of what no request line may hold is modelled.
- Gateway.Gateway.Advance: takes a step of the control plane as the transition system has it; only the answers to CLIs are written out there.
- JWT signing, SHA-256, credentials, API tokens beyond their lock, configuration, the CLI's background tunnels, the installers and the other dashboard pages.
