/** What the event log and the tunnel history say about each tunnel, at every instant. */
module ControlLog {
  import opened Wrappers
  import opened Control
  import opened ControlShape

  predicate About(e: Event, t: Tid) {
    (e.TunnelOpened? && e.tid == t) || (e.TunnelClosed? && e.closed == t)
  }

  /** The events about one tunnel, in log order. */
  function Of(log: seq<Event>, t: Tid): seq<Event> {
    if log == [] then []
    else Of(log[..|log| - 1], t) + if About(log[|log| - 1], t) then [log[|log| - 1]] else []
  }

  lemma {:induction false} OfAppend(log: seq<Event>, more: seq<Event>, t: Tid)
    ensures Of(log + more, t) == Of(log, t) + Of(more, t)
    decreases |more|
  {
    if more == [] {
      assert log + more == log;
    } else {
      var last := |more| - 1;
      assert (log + more)[..|log + more| - 1] == log + more[..last];
      OfAppend(log, more[..last], t);
    }
  }

  /** The history records of one tunnel. */
  function RecordsOf(archive: seq<TunnelRecord>, t: Tid): seq<TunnelRecord> {
    if archive == [] then []
    else RecordsOf(archive[..|archive| - 1], t)
         + if archive[|archive| - 1].tid == t then [archive[|archive| - 1]] else []
  }

  lemma RecordsOfAppend(archive: seq<TunnelRecord>, r: TunnelRecord, t: Tid)
    ensures RecordsOf(archive + [r], t) == RecordsOf(archive, t) + if r.tid == t then [r] else []
  {
    assert (archive + [r])[..|archive|] == archive;
  }

  /** `TunnelOpened` has been published and `TunnelClosed` has not. */
  predicate OpenSeen(pc: Pc) {
    pc.AnnouncedVia? || pc.ServingVia? || pc.LeavingVia? || pc.CloseSent?
    || pc.ServingDirect? || pc.Returned? || pc.Removed? || pc.Archived?
  }

  predicate CloseSeen(pc: Pc) {
    pc.ClosedOut? || pc.EndedClosed?
  }

  predicate HasRecord(pc: Pc) {
    pc.Archived? || CloseSeen(pc)
  }

  /** What a session in a given phase has published. */
  function Trace(t: Tid, c: Session): seq<Event> {
    if OpenSeen(c.pc) then [OpenedEvent(t, c)]
    else if CloseSeen(c.pc) then [OpenedEvent(t, c), TunnelClosed(t)]
    else []
  }

  function TraceAt(s: State, t: Tid): seq<Event> {
    if t in s.sessions then Trace(t, s.sessions[t]) else []
  }

  ghost predicate RecordExact(s: State, t: Tid) {
    var rs := RecordsOf(s.archive, t);
    if t in s.sessions && HasRecord(s.sessions[t].pc)
    then |rs| == 1 && rs[0] == RecordOf(t, EntryOf(t, s.sessions[t]), rs[0].endedAt)
    else rs == []
  }

  ghost predicate LogExact(s: State) {
    && (forall t: Tid :: Of(s.log, t) == TraceAt(s, t))
    && (forall t: Tid :: RecordExact(s, t))
  }

  /** From its insertion into the tunnel table on, what a session reports about itself is settled. */
  predicate Settled(pc: Pc) {
    Listed(pc) || pc.Removed? || HasRecord(pc)
  }

  lemma SettledKept(s: State, a: Action)
    requires Enabled(s, a) && Actor(a).Some? && !a.Connect? && Settled(s.sessions[a.t].pc)
    ensures var c := s.sessions[a.t]; var c' := SessionAfter(s, a);
            c'.reg == c.reg && c'.port == c.port && c'.node == c.node && c'.via == c.via && c'.startedAt == c.startedAt
  {
  }

  // How a step moves through the phases that publish and record.

  lemma OpenPhase(s: State, a: Action)
    requires Enabled(s, a) && Actor(a).Some? && !a.Connect? && EntryExact(s, a.t)
    ensures var pc := s.sessions[a.t].pc;
            OpenSeen(SessionAfter(s, a).pc) <==>
            ((OpenSeen(pc) && !a.AnnounceClosed?) || a.AnnounceVia? || a.AnnounceDirect?)
    ensures a.AnnounceClosed? ==> OpenSeen(s.sessions[a.t].pc)
  {
  }

  lemma ClosePhase(s: State, a: Action)
    requires Enabled(s, a) && Actor(a).Some? && !a.Connect?
    ensures CloseSeen(SessionAfter(s, a).pc) <==> CloseSeen(s.sessions[a.t].pc) || a.AnnounceClosed?
  {
  }

  lemma RecordPhase(s: State, a: Action)
    requires Enabled(s, a) && Actor(a).Some? && !a.Connect?
    ensures HasRecord(SessionAfter(s, a).pc) <==> HasRecord(s.sessions[a.t].pc) || a.Archive?
    ensures a.Archive? ==> !HasRecord(s.sessions[a.t].pc)
  {
    if HasRecord(s.sessions[a.t].pc) {
      assert a.AnnounceClosed? || a.Release?;
    }
  }

  lemma TraceOfActor(s: State, a: Action)
    requires Enabled(s, a) && Actor(a).Some? && EntryExact(s, Actor(a).value)
    ensures var t := Actor(a).value;
            Trace(t, SessionAfter(s, a)) == TraceAt(s, t) + Published(s, a)
  {
    var t := Actor(a).value;
    if !a.Connect? {
      OpenPhase(s, a);
      ClosePhase(s, a);
      if Settled(s.sessions[t].pc) {
        SettledKept(s, a);
      }
    }
    if a.AnnounceVia? || a.AnnounceDirect? || a.AnnounceClosed? {
    } else {
      assert Published(s, a) == [];
    }
  }

  /** A step publishes at most one event, and a tunnel event is about the acting session. */
  lemma PublishedOf(s: State, a: Action, t: Tid)
    requires Enabled(s, a)
    ensures |Published(s, a)| <= 1
    ensures Of(Published(s, a), t) == if Actor(a) == Some(t) then Published(s, a) else []
  {
    if Published(s, a) != [] {
      assert Published(s, a)[..0] == [];
    }
  }

  lemma RecordOfActor(s: State, a: Action)
    requires Enabled(s, a) && Actor(a).Some? && RecordExact(s, Actor(a).value)
    requires Actor(a).value in s.sessions ==> SessionOk(s, Actor(a).value, s.sessions[Actor(a).value])
    ensures RecordExact(Apply(s, a), Actor(a).value)
  {
    var t := Actor(a).value;
    if !a.Connect? {
      RecordPhase(s, a);
      if Settled(s.sessions[t].pc) {
        SettledKept(s, a);
      }
    }
    if a.Archive? {
      RecordsOfAppend(s.archive, Recorded(s, a)[0], t);
    } else {
      assert s.archive + Recorded(s, a) == s.archive;
    }
  }

  lemma LogStep(s: State, a: Action)
    requires Shape(s) && LogExact(s) && Enabled(s, a)
    ensures LogExact(Apply(s, a))
  {
    var s' := Apply(s, a);
    forall t: Tid ensures Of(s'.log, t) == TraceAt(s', t) {
      OfAppend(s.log, Published(s, a), t);
      PublishedOf(s, a, t);
      if Actor(a) == Some(t) {
        assert EntryExact(s, t);
        TraceOfActor(s, a);
      }
    }
    forall t: Tid ensures RecordExact(s', t) {
      assert RecordExact(s, t);
      if Actor(a) == Some(t) {
        RecordOfActor(s, a);
      } else if a.Archive? {
        RecordsOfAppend(s.archive, Recorded(s, a)[0], t);
      } else {
        assert s.archive + Recorded(s, a) == s.archive;
      }
    }
  }
}
