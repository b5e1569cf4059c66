/**
 The dashboard's copy of the tunnel table: a snapshot, then events folded into it
 (web/src/routes/+layout.svelte, crates/server/src/api/tunnels.rs).
 */
module Replica {
  import opened Wrappers
  import opened Ports
  import opened Control
  import opened ControlShape
  import opened ControlLog
  import opened ControlInvariant

  datatype Row = Row(
    tid: Tid, protocol: string, localPort: Port, remotePort: Port,
    node: Option<string>, device: Option<string>, startedAt: int)

  /** The row the snapshot endpoint renders for an entry. */
  function RowOf(t: Tid, e: Entry): Row {
    Row(t, ProtocolName(e.protocol), e.localPort, e.remotePort, e.node, e.hostname, e.startedAt)
  }

  /** The row the dashboard builds from an event: an empty node name reads as none, the device is unknown. */
  function RowFrom(e: Event): Row
    requires e.TunnelOpened?
  {
    Row(e.tid, e.protocol, e.localPort, e.remotePort, if e.node == "" then None else Some(e.node), None, e.startedAt)
  }

  function Without(rows: seq<Row>, t: Tid): seq<Row> {
    if rows == [] then []
    else Without(rows[..|rows| - 1], t) + if rows[|rows| - 1].tid == t then [] else [rows[|rows| - 1]]
  }

  function Handled(rows: seq<Row>, e: Event): seq<Row> {
    if e.TunnelOpened? then Without(rows, e.tid) + [RowFrom(e)]
    else if e.TunnelClosed? then Without(rows, e.closed)
    else rows
  }

  function Fold(rows: seq<Row>, events: seq<Event>): seq<Row> {
    if events == [] then rows else Handled(Fold(rows, events[..|events| - 1]), events[|events| - 1])
  }

  // ---- One tunnel's share of the table ----

  function RowsOf(rows: seq<Row>, t: Tid): seq<Row> {
    if rows == [] then []
    else RowsOf(rows[..|rows| - 1], t) + if rows[|rows| - 1].tid == t then [rows[|rows| - 1]] else []
  }

  lemma RowsOfAppend(rows: seq<Row>, r: Row, t: Tid)
    ensures RowsOf(rows + [r], t) == RowsOf(rows, t) + if r.tid == t then [r] else []
  {
    assert (rows + [r])[..|rows|] == rows;
  }

  lemma {:induction false} RowsOfWithout(rows: seq<Row>, u: Tid, t: Tid)
    ensures RowsOf(Without(rows, u), t) == if u == t then [] else RowsOf(rows, t)
    decreases |rows|
  {
    if rows != [] {
      var before := rows[..|rows| - 1];
      var last := rows[|rows| - 1];
      RowsOfWithout(before, u, t);
      if last.tid == u {
        assert Without(rows, u) == Without(before, u);
      } else {
        RowsOfAppend(Without(before, u), last, t);
      }
    }
  }

  /** One event replaces, removes, or leaves alone a tunnel's rows. */
  lemma HandledOf(rows: seq<Row>, e: Event, t: Tid)
    ensures RowsOf(Handled(rows, e), t) ==
            if !About(e, t) then RowsOf(rows, t) else if e.TunnelOpened? then [RowFrom(e)] else []
  {
    if e.TunnelOpened? {
      RowsOfWithout(rows, e.tid, t);
      RowsOfAppend(Without(rows, e.tid), RowFrom(e), t);
    } else if e.TunnelClosed? {
      RowsOfWithout(rows, e.closed, t);
    }
  }

  /** Folding touches a tunnel's rows only through the last event about it. */
  lemma {:induction false} FoldOf(rows: seq<Row>, events: seq<Event>, t: Tid)
    ensures RowsOf(Fold(rows, events), t) ==
            var about := Of(events, t);
            if about == [] then RowsOf(rows, t)
            else if about[|about| - 1].TunnelOpened? then [RowFrom(about[|about| - 1])]
            else []
    decreases |events|
  {
    if events != [] {
      var before, e := events[..|events| - 1], events[|events| - 1];
      FoldOf(rows, before, t);
      HandledOf(Fold(rows, before), e, t);
    }
  }

  /** What the endpoint may answer: one row per entry, in any order. */
  ghost predicate IsSnapshot(active: map<Tid, Entry>, rows: seq<Row>) {
    forall t: Tid :: RowsOf(rows, t) == Fresh(active, t)
  }

  /** A snapshot's rows of one tunnel. */
  function Fresh(active: map<Tid, Entry>, t: Tid): seq<Row> {
    if t in active then [RowOf(t, active[t])] else []
  }

  /** The table without the entries still to be rendered. */
  function Done(active: map<Tid, Entry>, rest: set<Tid>): map<Tid, Entry> {
    active - rest
  }

  lemma OneMoreRow(active: map<Tid, Entry>, rest: set<Tid>, t: Tid, rows: seq<Row>)
    requires t in rest && rest <= active.Keys && IsSnapshot(Done(active, rest), rows)
    ensures IsSnapshot(Done(active, rest - {t}), rows + [RowOf(t, active[t])])
  {
    forall u: Tid ensures RowsOf(rows + [RowOf(t, active[t])], u)
                          == RowsOf(rows, u) + if u == t then [RowOf(t, active[t])] else [] {
      RowsOfAppend(rows, RowOf(t, active[t]), u);
    }
  }

  /** The snapshot endpoint renders the table in an arbitrary order, each entry once. */
  method Snapshot(active: map<Tid, Entry>) returns (rows: seq<Row>)
    ensures IsSnapshot(active, rows)
  {
    rows := [];
    var rest := active.Keys;
    while rest != {}
      invariant rest <= active.Keys
      invariant IsSnapshot(Done(active, rest), rows)
    {
      var t :| t in rest;
      OneMoreRow(active, rest, t, rows);
      rows := rows + [RowOf(t, active[t])];
      rest := rest - {t};
    }
    assert Done(active, {}) == active;
  }

  // ---- What never changes back ----

  /** Past its removal from the tunnel table. */
  predicate Left(pc: Pc) {
    pc.Removed? || HasRecord(pc)
  }

  ghost predicate Evolves(s: State, s': State, t: Tid) {
    t in s.sessions ==>
      && t in s'.sessions
      && (Settled(s.sessions[t].pc) ==>
            Settled(s'.sessions[t].pc) && EntryOf(t, s'.sessions[t]) == EntryOf(t, s.sessions[t]))
      && (Left(s.sessions[t].pc) ==> Left(s'.sessions[t].pc))
  }

  lemma EvolvesStep(s: State, a: Action, t: Tid)
    requires Shape(s) && Enabled(s, a)
    ensures Evolves(s, Apply(s, a), t)
  {
    if Actor(a) == Some(t) && t in s.sessions && Settled(s.sessions[t].pc) {
      SettledKept(s, a);
      SettledPhase(s, a);
    }
  }

  lemma SettledPhase(s: State, a: Action)
    requires Enabled(s, a) && Actor(a).Some? && !a.Connect? && EntryExact(s, a.t) && Settled(s.sessions[a.t].pc)
    ensures Settled(SessionAfter(s, a).pc)
    ensures Left(s.sessions[a.t].pc) ==> Left(SessionAfter(s, a).pc)
  {
  }

  lemma {:induction false} EvolvesRun(s: State, run: seq<Action>, t: Tid)
    requires Shape(s) && Valid(s, run)
    ensures Evolves(s, Exec(s, run), t)
    ensures s.log <= Exec(s, run).log
    decreases |run|
  {
    if run != [] {
      ShapeStep(s, run[0]);
      EvolvesStep(s, run[0], t);
      EvolvesRun(Apply(s, run[0]), run[1..], t);
    }
  }

  // ---- Convergence ----

  /** Inserted into the table, `TunnelOpened` not yet published. */
  ghost predicate Arriving(s: State, t: Tid) {
    t in s.active && t in s.sessions && !OpenSeen(s.sessions[t].pc)
  }

  /** Removed from the table, `TunnelClosed` not yet published. */
  ghost predicate Departing(s: State, t: Tid) {
    t !in s.active && t in s.sessions && OpenSeen(s.sessions[t].pc)
  }

  /** What an event can tell about a row. */
  function SeenThroughEvent(r: Row): Row {
    r.(device := None, node := if r.node == Some("") then None else r.node)
  }

  /** The row a dashboard shows for a tunnel, given whether it replayed the opening event. */
  function Shown(s: State, t: Tid, replayed: bool): Row
    requires t in s.sessions
  {
    var r := RowOf(t, EntryOf(t, s.sessions[t]));
    if replayed then SeenThroughEvent(r) else r
  }

  lemma EventShowsEntry(t: Tid, c: Session)
    ensures RowFrom(OpenedEvent(t, c)) == SeenThroughEvent(RowOf(t, EntryOf(t, c)))
  {
  }

  /** What a converged dashboard may show of one tunnel. */
  ghost predicate RightRows(now: State, t: Tid, mine: seq<Row>, replayed: bool) {
    && |mine| <= 1
    && (t in now.active && !Arriving(now, t) ==> mine != [])
    && (mine != [] ==> t in now.active || Departing(now, t))
    && (mine != [] ==> t in now.sessions && mine[0] == Shown(now, t, replayed))
  }

  /** A tunnel none of whose events are replayed: the snapshot row alone decides. */
  lemma Unreplayed(b: State, now: State, t: Tid, before: seq<Event>, between: seq<Event>)
    requires Evolves(b, now, t)
    requires TraceAt(now, t) == before && TraceAt(b, t) == before + between
    requires (t in now.active <==> ListedAt(now, t)) && (t in b.active <==> ListedAt(b, t))
    ensures RightRows(now, t, if ListedAt(b, t) then [RowOf(t, EntryOf(t, b.sessions[t]))] else [], false)
  {
  }

  /** The last replayed event about a tunnel tells its phase. */
  lemma Replayed(now: State, t: Tid, before: seq<Event>, after: seq<Event>)
    requires after != [] && TraceAt(now, t) == before + after
    requires t in now.active <==> ListedAt(now, t)
    ensures var last := after[|after| - 1];
            RightRows(now, t, if last.TunnelOpened? then [RowFrom(last)] else [], true)
  {
    var trace := TraceAt(now, t);
    assert trace[|trace| - 1] == after[|after| - 1];
    EventShowsEntry(t, now.sessions[t]);
  }

  /** Convergence for one tunnel, from its events before and after the cut. */
  lemma ConvergesFrom(b: State, now: State, t: Tid,
                      before: seq<Event>, between: seq<Event>, after: seq<Event>, mine: seq<Row>)
    requires Evolves(b, now, t)
    requires TraceAt(now, t) == before + after && TraceAt(b, t) == before + between
    requires (t in now.active <==> ListedAt(now, t)) && (t in b.active <==> ListedAt(b, t))
    requires mine == if after == [] then (if ListedAt(b, t) then [RowOf(t, EntryOf(t, b.sessions[t]))] else [])
                     else if after[|after| - 1].TunnelOpened? then [RowFrom(after[|after| - 1])] else []
    ensures RightRows(now, t, mine, after != [])
  {
    if after == [] {
      assert before + after == before;
      Unreplayed(b, now, t, before, between);
    } else {
      Replayed(now, t, before, after);
    }
  }

  /** Convergence for one tunnel, from what the log, the table and the session say about it. */
  lemma ConvergesAt(b: State, now: State, t: Tid,
                    early: seq<Event>, middle: seq<Event>, replayed: seq<Event>, rows: seq<Row>)
    requires Evolves(b, now, t) && b.log == early + middle && now.log == early + replayed
    requires RowsOf(rows, t) == Fresh(b.active, t)
    requires Of(b.log, t) == TraceAt(b, t) && Of(now.log, t) == TraceAt(now, t)
    requires EntryExact(b, t) && EntryExact(now, t)
    ensures RightRows(now, t, RowsOf(Fold(rows, replayed), t), Of(replayed, t) != [])
  {
    var mine := RowsOf(Fold(rows, replayed), t);
    FoldOf(rows, replayed, t);
    OfAppend(early, middle, t);
    OfAppend(early, replayed, t);
    ConvergesFrom(b, now, t, Of(early, t), Of(middle, t), Of(replayed, t), mine);
  }

  /** A log and a later one, cut at the same place. */
  lemma Cut(log: seq<Event>, later: seq<Event>, k: nat)
    requires k <= |log| && log <= later
    ensures log == log[..k] + log[k..] && later == log[..k] + later[k..]
  {
  }

  lemma ConvergesCut(b: State, now: State, t: Tid, k: nat, rows: seq<Row>)
    requires Evolves(b, now, t) && k <= |b.log| && b.log <= now.log
    requires RowsOf(rows, t) == Fresh(b.active, t)
    requires Of(b.log, t) == TraceAt(b, t) && Of(now.log, t) == TraceAt(now, t)
    requires EntryExact(b, t) && EntryExact(now, t)
    ensures RightRows(now, t, RowsOf(Fold(rows, now.log[k..]), t), Of(now.log[k..], t) != [])
  {
    Cut(b.log, now.log, k);
    ConvergesAt(b, now, t, b.log[..k], b.log[k..], now.log[k..], rows);
  }

  /**
   Convergence. A dashboard that loaded a snapshot and then applied, in order, every event
   from any log position not after the snapshot shows each tunnel at most once, shows every
   tunnel except some that are just arriving, and shows no stranger except some that are
   just departing; each row it shows is the tunnel's own.
   */
  lemma Converges(cfg: Config, past: seq<Action>, b: State, run: seq<Action>, k: nat, rows: seq<Row>, t: Tid)
    requires Reached(cfg, past, b) && Valid(b, run)
    requires k <= |b.log| && RowsOf(rows, t) == Fresh(b.active, t)
    ensures k <= |Exec(b, run).log|
    ensures var now := Exec(b, run);
            RightRows(now, t, RowsOf(Fold(rows, now.log[k..]), t), Of(now.log[k..], t) != [])
  {
    var now := Exec(b, run);
    ReachedLog(cfg, past, b, t);
    ReachedRun(cfg, past, b, run);
    ReachedLog(cfg, past + run, now, t);
    EvolvesRun(b, run, t);
    ConvergesCut(b, now, t, k, rows);
  }

  lemma QuietRows(now: State, t: Tid, mine: seq<Row>, replayed: bool)
    requires RightRows(now, t, mine, replayed) && EntryExact(now, t)
    requires !Arriving(now, t) && !Departing(now, t)
    ensures t in now.active ==> t in now.sessions
    ensures mine == if t in now.active then [Shown(now, t, replayed)] else []
  {
    assert mine != [] ==> mine == [mine[0]];
  }

  /** With no session in either window the dashboard shows exactly the tunnel table. */
  lemma ConvergesWhenQuiet(cfg: Config, past: seq<Action>, b: State, run: seq<Action>, k: nat, rows: seq<Row>, t: Tid)
    requires Reached(cfg, past, b) && Valid(b, run)
    requires k <= |b.log| && RowsOf(rows, t) == Fresh(b.active, t)
    requires !Arriving(Exec(b, run), t) && !Departing(Exec(b, run), t)
    ensures k <= |Exec(b, run).log|
    ensures var now := Exec(b, run);
            && (t in now.active ==> t in now.sessions)
            && RowsOf(Fold(rows, now.log[k..]), t)
               == if t in now.active then [Shown(now, t, Of(now.log[k..], t) != [])] else []
  {
    var now := Exec(b, run);
    Converges(cfg, past, b, run, k, rows, t);
    ReachedRun(cfg, past, b, run);
    ReachedLog(cfg, past + run, now, t);
    QuietRows(now, t, RowsOf(Fold(rows, now.log[k..]), t), Of(now.log[k..], t) != []);
  }

  /** What an event leaves out of a row matters exactly when there was something to leave out. */
  lemma SeenExactIff(r: Row)
    ensures SeenThroughEvent(r) == r <==> (r.device.None? && r.node != Some(""))
  {
  }

  /**
   With no session in either window the dashboard equals a fresh snapshot exactly when the
   tunnel's opening was not replayed, or its CLI reported no host and its node has a proper
   name: the event carries no device, and an empty node name is read as no node.
   */
  lemma ConvergesExactlyIff(cfg: Config, past: seq<Action>, b: State, run: seq<Action>, k: nat, rows: seq<Row>, t: Tid)
    requires Reached(cfg, past, b) && Valid(b, run)
    requires k <= |b.log| && RowsOf(rows, t) == Fresh(b.active, t)
    requires !Arriving(Exec(b, run), t) && !Departing(Exec(b, run), t)
    ensures k <= |Exec(b, run).log|
    ensures var now := Exec(b, run);
            RowsOf(Fold(rows, now.log[k..]), t) == Fresh(now.active, t) <==>
            (t !in now.active || Of(now.log[k..], t) == []
             || (now.active[t].hostname.None? && now.active[t].node != Some("")))
  {
    var now := Exec(b, run);
    ConvergesWhenQuiet(cfg, past, b, run, k, rows, t);
    ReachedRun(cfg, past, b, run);
    ReachedLog(cfg, past + run, now, t);
    if t in now.active {
      SeenExactIff(RowOf(t, now.active[t]));
    }
  }

  // ---- Events that the load did not wait for ----

  /** Outside the windows a tunnel is listed exactly when it has opened and not closed. */
  lemma QuietTrace(s: State, t: Tid)
    requires EntryExact(s, t) && !Arriving(s, t) && !Departing(s, t)
    ensures t in s.active <==> |TraceAt(s, t)| == 1
    ensures |TraceAt(s, t)| <= 2
  {
  }

  /** The events about one tunnel that were missed, and those that were replayed. */
  lemma MissedAndReplayed(b: State, now: State, k: nat, t: Tid)
    requires b.log <= now.log && |b.log| <= k <= |now.log|
    requires Of(b.log, t) == TraceAt(b, t) && Of(now.log, t) == TraceAt(now, t)
    ensures TraceAt(now, t) == TraceAt(b, t) + Of(now.log[|b.log|..k], t) + Of(now.log[k..], t)
  {
    var missed, replayed := now.log[|b.log|..k], now.log[k..];
    assert now.log == b.log + missed + replayed;
    OfAppend(b.log + missed, replayed, t);
    OfAppend(b.log, missed, t);
  }

  /**
   The events about one tunnel that are in neither part: published after the snapshot and
   before position `k`, where the events applied after the load begin. They came before the
   subscription, or were applied before the load and overwritten by it.
   */
  function Missed(b: State, now: State, k: nat, t: Tid): seq<Event>
    requires |b.log| <= |now.log| && k <= |now.log|
  {
    if k <= |b.log| then [] else Of(now.log[|b.log|..k], t)
  }

  /** Outside the windows the dashboard knows whether a tunnel is there. */
  ghost predicate KnowsPresence(now: State, t: Tid, mine: seq<Row>) {
    mine != [] <==> t in now.active
  }

  /**
   Presence. Whatever the position of the first event applied after the load, outside the
   windows the dashboard knows whether a tunnel is there exactly when it missed none of the
   tunnel's events, or both, or was told another one after the load.
   */
  lemma PresenceIff(cfg: Config, past: seq<Action>, b: State, run: seq<Action>, k: nat, rows: seq<Row>, t: Tid)
    requires Reached(cfg, past, b) && Valid(b, run)
    requires k <= |Exec(b, run).log| && RowsOf(rows, t) == Fresh(b.active, t)
    requires !Arriving(b, t) && !Departing(b, t) && !Arriving(Exec(b, run), t) && !Departing(Exec(b, run), t)
    ensures b.log <= Exec(b, run).log
    ensures var now := Exec(b, run);
            var missed, after := Missed(b, now, k, t), Of(now.log[k..], t);
            KnowsPresence(now, t, RowsOf(Fold(rows, now.log[k..]), t)) <==>
            (missed == [] || |missed| == 2 || after != [])
  {
    var now := Exec(b, run);
    EvolvesIn(cfg, past, b, run, t);
    if k <= |b.log| {
      ConvergesWhenQuiet(cfg, past, b, run, k, rows, t);
    } else {
      ReachedLog(cfg, past, b, t);
      ReachedRun(cfg, past, b, run);
      ReachedLog(cfg, past + run, now, t);
      LateAt(b, now, k, rows, t);
    }
  }

  lemma EvolvesIn(cfg: Config, past: seq<Action>, b: State, run: seq<Action>, t: Tid)
    requires Reached(cfg, past, b) && Valid(b, run)
    ensures b.log <= Exec(b, run).log
  {
    ReachedLog(cfg, past, b, t);
    EvolvesRun(b, run, t);
  }

  lemma LateAt(b: State, now: State, k: nat, rows: seq<Row>, t: Tid)
    requires b.log <= now.log && |b.log| <= k <= |now.log| && RowsOf(rows, t) == Fresh(b.active, t)
    requires Of(b.log, t) == TraceAt(b, t) && Of(now.log, t) == TraceAt(now, t)
    requires EntryExact(b, t) && EntryExact(now, t)
    requires !Arriving(b, t) && !Departing(b, t) && !Arriving(now, t) && !Departing(now, t)
    ensures var missed, replayed := Of(now.log[|b.log|..k], t), Of(now.log[k..], t);
            KnowsPresence(now, t, RowsOf(Fold(rows, now.log[k..]), t)) <==>
            (missed == [] || |missed| == 2 || replayed != [])
  {
    var missed, replayed := Of(now.log[|b.log|..k], t), Of(now.log[k..], t);
    MissedAndReplayed(b, now, k, t);
    FoldOf(rows, now.log[k..], t);
    LateFrom(b, now, t, missed, replayed, RowsOf(Fold(rows, now.log[k..]), t));
  }

  lemma LateFrom(b: State, now: State, t: Tid, missed: seq<Event>, replayed: seq<Event>, mine: seq<Row>)
    requires TraceAt(now, t) == TraceAt(b, t) + missed + replayed
    requires mine == if replayed == [] then Fresh(b.active, t)
                     else if replayed[|replayed| - 1].TunnelOpened? then [RowFrom(replayed[|replayed| - 1])] else []
    requires EntryExact(b, t) && EntryExact(now, t)
    requires !Arriving(b, t) && !Departing(b, t) && !Arriving(now, t) && !Departing(now, t)
    ensures KnowsPresence(now, t, mine) <==> (missed == [] || |missed| == 2 || replayed != [])
  {
    QuietTrace(b, t);
    QuietTrace(now, t);
    if replayed != [] {
      Replayed(now, t, TraceAt(b, t) + missed, replayed);
    }
  }

  // ---- The store ----

  /** The `tunnels` store. */
  class Dashboard {
    var tunnels: seq<Row>

    constructor ()
      ensures tunnels == []
    {
      tunnels := [];
    }

    method LoadAll(snapshot: seq<Row>)
      modifies this
      ensures tunnels == snapshot
    {
      tunnels := snapshot;
    }

    method HandleEvent(e: Event)
      modifies this
      ensures tunnels == Handled(old(tunnels), e)
    {
      match e
      case TunnelOpened(tid, protocol, localPort, remotePort, node, startedAt) =>
        tunnels := Without(tunnels, tid)
          + [Row(tid, protocol, localPort, remotePort, if node == "" then None else Some(node), None, startedAt)];
      case TunnelClosed(tid) =>
        tunnels := Without(tunnels, tid);
      case _ =>
    }

    /** The event source delivers events one by one. */
    method Replay(events: seq<Event>)
      modifies this
      ensures tunnels == Fold(old(tunnels), events)
    {
      for i := 0 to |events|
        invariant tunnels == Fold(old(tunnels), events[..i])
      {
        HandleEvent(events[i]);
        assert events[..i + 1][..i] == events[..i];
      }
      assert events[..|events|] == events;
    }

    /**
     `connect`: the fetch and the subscription run side by side. Events that arrive before both
     tables have been fetched are applied to the old store and then overwritten; those that
     arrive later, from log position `k` on, are folded into the snapshot. The server answered
     the snapshot in state `b` of a run that has gone on to `Exec(b, run)`. If nothing that was
     published after the snapshot came before the load, the store converges; otherwise it is
     wrong about exactly those tunnels about which it was told too early, and not again.
     */
    method Follow(early: seq<Event>, snapshot: seq<Row>, late: seq<Event>,
                  ghost cfg: Config, ghost past: seq<Action>, ghost b: State, ghost run: seq<Action>, ghost k: nat)
      requires Reached(cfg, past, b) && Valid(b, run) && IsSnapshot(b.active, snapshot)
      requires k <= |Exec(b, run).log| && late == Exec(b, run).log[k..] && |b.log| <= |Exec(b, run).log|
      modifies this
      ensures k <= |b.log| ==>
                forall t: Tid :: RightRows(Exec(b, run), t, RowsOf(tunnels, t), Of(late, t) != [])
      ensures forall t: Tid | Settles(b, Exec(b, run), t) ::
                KnowsPresence(Exec(b, run), t, RowsOf(tunnels, t)) <==>
                (Missed(b, Exec(b, run), k, t) == [] || |Missed(b, Exec(b, run), k, t)| == 2 || Of(late, t) != [])
    {
      Replay(early);
      LoadAll(snapshot);
      Replay(late);
      forall t: Tid ensures k <= |b.log| ==> RightRows(Exec(b, run), t, RowsOf(tunnels, t), Of(late, t) != []) {
        if k <= |b.log| {
          Converges(cfg, past, b, run, k, snapshot, t);
        }
      }
      forall t: Tid | Settles(b, Exec(b, run), t)
        ensures KnowsPresence(Exec(b, run), t, RowsOf(tunnels, t)) <==>
                (Missed(b, Exec(b, run), k, t) == [] || |Missed(b, Exec(b, run), k, t)| == 2 || Of(late, t) != [])
      {
        PresenceIff(cfg, past, b, run, k, snapshot, t);
      }
    }
  }

  /** In neither window, when the snapshot was taken and now. */
  ghost predicate Settles(b: State, now: State, t: Tid) {
    !Arriving(b, t) && !Departing(b, t) && !Arriving(now, t) && !Departing(now, t)
  }

  // ---- Converged and yet different ----

  const SERVER := Config(Range(9000, 9000), ["key"])
  const LAPTOP := Register("key", Tcp, 80, Some(9000), None, Some("laptop"))

  /** One more step of a run. */
  lemma Then(run: seq<Action>, s: State, a: Action) returns (run': seq<Action>, s': State)
    requires Reached(SERVER, run, s) && Enabled(s, a)
    ensures Reached(SERVER, run', s') && s' == Apply(s, a)
  {
    ReachedStep(SERVER, run, s, a);
    run', s' := run + [a], Apply(s, a);
  }

  lemma LaptopAdmitted() returns (run: seq<Action>, s: State)
    ensures Reached(SERVER, run, s) && s.cfg == SERVER && s.available == All(SERVER.range) && s.nodes == map[]
    ensures 0 in s.sessions && s.sessions[0] == Session(LAPTOP, Known, 0, None, false, 0, None)
  {
    run, s := [], Init(SERVER);
    run, s := Then(run, s, Connect(0, LAPTOP));
    run, s := Then(run, s, Auth(0));
    run, s := Then(run, s, Upsert(0, 0, 0));
  }

  lemma LaptopTurned() returns (run: seq<Action>, s: State)
    ensures Reached(SERVER, run, s)
    ensures 0 in s.sessions && s.sessions[0] == Session(LAPTOP, DirectStart, 9000, None, false, 0, None)
  {
    run, s := LaptopAdmitted();
    run, s := Then(run, s, Acquire(0, Some(9000)));
    run, s := Then(run, s, Pick(0, None));
  }

  lemma LaptopAnswered() returns (run: seq<Action>, s: State)
    ensures Reached(SERVER, run, s)
    ensures 0 in s.sessions && s.sessions[0] == Session(LAPTOP, AckedDirect, 9000, None, false, 0, None)
  {
    run, s := LaptopTurned();
    run, s := Then(run, s, Bind(0, true));
    run, s := Then(run, s, AckDirect(0, Delivered));
  }

  lemma LaptopServed() returns (run: seq<Action>, s: State)
    ensures Reached(SERVER, run, s)
    ensures 0 in s.sessions && s.sessions[0] == Session(LAPTOP, ServingDirect, 9000, None, false, 0, None)
  {
    run, s := LaptopAnswered();
    run, s := Then(run, s, InsertDirect(0, 0));
    run, s := Then(run, s, AnnounceDirect(0));
  }

  /** The dashboard of an empty server replays everything, no session is in either window, and
      yet a fresh snapshot differs from what it shows. */
  lemma ConvergedYetDifferent()
    ensures exists run, s, t ::
              && Reached(SERVER, run, s) && IsSnapshot(Init(SERVER).active, [])
              && !Arriving(s, t) && !Departing(s, t)
              && RowsOf(Fold([], s.log), t) != Fresh(s.active, t)
  {
    var run, s := LaptopServed();
    assert Valid(Init(SERVER), []) && Reached(SERVER, [], Init(SERVER));
    ReachedLog(SERVER, run, s, 0);
    assert s.log[0..] == s.log && Of(s.log, 0) == TraceAt(s, 0);
    ConvergesExactlyIff(SERVER, [], Init(SERVER), run, 0, [], 0);
    assert s.active[0].hostname == Some("laptop");
  }

  /** In state `s` every event has been delivered before the load of a snapshot of the empty
      server, nobody is in a window, and the store is wrong about whether tunnel `t` is there. */
  ghost predicate WrongAbout(s: State, t: Tid) {
    && IsSnapshot(Init(SERVER).active, [])
    && Settles(Init(SERVER), s, t)
    && Missed(Init(SERVER), s, |s.log|, t) == Of(s.log, t) != []
    && !KnowsPresence(s, t, RowsOf(Fold([], s.log[|s.log|..]), t))
  }

  /** A dashboard that is wrong about a tunnel although it was told everything: one tunnel has
      opened since the snapshot, and its event arrived before the load. */
  lemma LoadOvertaken()
    ensures exists run, s, t :: Reached(SERVER, run, s) && WrongAbout(s, t)
  {
    var run, s := LaptopServed();
    ReachedLog(SERVER, run, s, 0);
    assert 0 in s.active && Of(s.log, 0) == TraceAt(s, 0) != [];
    assert s.log[0..|s.log|] == s.log && s.log[|s.log|..] == [];
    assert Fold([], []) == [];
    assert WrongAbout(s, 0);
  }
}
