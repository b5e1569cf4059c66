/**
 The order in which a session does what it does: `handle_cli` with its two serving paths, and
 `handle_node`, read as scripts (crates/server/src/control.rs), and every session of every
 run follows one.
 */
module ControlScripts {
  import opened Wrappers
  import opened Control
  import opened ControlShape
  import opened ControlInvariant

  /** A step of a session without what the environment decided. */
  datatype Kind =
    | Connects | Auths | Upserts | Acquires | Picks
    | SendsOpen | InsertsVia | Counts | AnnouncesVia | AcksVia | LeavesVia | SendsClose | Uncounts
    | Binds | AcksDirect | InsertsDirect | AnnouncesDirect | LeavesDirect
    | Removes | Archives | AnnouncesClosed | Releases

  function KindOf(a: Action): Kind
    requires Actor(a).Some?
  {
    match a
    case Connect(_, _) => Connects
    case Auth(_) => Auths
    case Upsert(_, _, _) => Upserts
    case Acquire(_, _) => Acquires
    case Pick(_, _) => Picks
    case SendOpen(_, _) => SendsOpen
    case InsertVia(_, _) => InsertsVia
    case Count(_) => Counts
    case AnnounceVia(_) => AnnouncesVia
    case AckVia(_, _) => AcksVia
    case LeaveVia(_) => LeavesVia
    case SendClose(_, _) => SendsClose
    case Uncount(_) => Uncounts
    case Bind(_, _) => Binds
    case AckDirect(_, _) => AcksDirect
    case InsertDirect(_, _) => InsertsDirect
    case AnnounceDirect(_) => AnnouncesDirect
    case LeaveDirect(_) => LeavesDirect
    case Remove(_) => Removes
    case Archive(_, _) => Archives
    case AnnounceClosed(_) => AnnouncesClosed
    case Release(_) => Releases
  }

  /** What one session has done in a run, in order. */
  function Own(run: seq<Action>, t: Tid): seq<Kind> {
    if run == [] then []
    else Own(run[..|run| - 1], t) + if Actor(run[|run| - 1]) == Some(t) then [KindOf(run[|run| - 1])] else []
  }

  // ---- The scripts ----

  const ADMISSION := [Connects, Auths, Upserts, Acquires]
  const THROUGH_NODE := [Picks, SendsOpen, InsertsVia, Counts, AnnouncesVia, AcksVia, LeavesVia, SendsClose, Uncounts]
  const DIRECT := [Binds, AcksDirect, InsertsDirect, AnnouncesDirect, LeavesDirect]
  const CLEAN_UP := [Removes, Archives, AnnouncesClosed, Releases]

  /** Admission and the choice of a path: the direct one straight away, or after a failed order. */
  function Turned(c: Session): seq<Kind> {
    ADMISSION + if c.node.Some? then [Picks, SendsOpen] else [Picks]
  }

  /** Everything up to the return of a serving path that had its tunnel listed. */
  function Served(c: Session): seq<Kind> {
    if c.via then ADMISSION + THROUGH_NODE else Turned(c) + DIRECT
  }

  /** The two early exits of the direct path, the bind failed or the answer did, and what followed. */
  predicate GaveUp(c: Session, rest: seq<Kind>, done: seq<Kind>) {
    done == Turned(c) + DIRECT[..1] + rest || done == Turned(c) + DIRECT[..2] + rest
  }

  /** `done` is what a session standing where `c` stands has done. */
  predicate Follows(c: Session, done: seq<Kind>) {
    match c.pc
    case Start => c.node.None? && done == ADMISSION[..1]
    case Authorized => c.node.None? && done == ADMISSION[..2]
    case Known => c.node.None? && done == ADMISSION[..3]
    case Rejected => done == ADMISSION[..2] || done == ADMISSION
    case Holding => c.node.None? && done == ADMISSION
    case Picked => c.node.Some? && done == ADMISSION + THROUGH_NODE[..1]
    case OpenSent => done == ADMISSION + THROUGH_NODE[..2]
    case InsertedVia => done == ADMISSION + THROUGH_NODE[..3]
    case CountedVia => done == ADMISSION + THROUGH_NODE[..4]
    case AnnouncedVia => done == ADMISSION + THROUGH_NODE[..5]
    case ServingVia => done == ADMISSION + THROUGH_NODE[..6]
    case LeavingVia => done == ADMISSION + THROUGH_NODE[..7]
    case CloseSent => done == ADMISSION + THROUGH_NODE[..8]
    case DirectStart => done == Turned(c)
    case Bound => done == Turned(c) + DIRECT[..1]
    case AckedDirect => done == Turned(c) + DIRECT[..2]
    case InsertedDirect => done == Turned(c) + DIRECT[..3]
    case ServingDirect => done == Turned(c) + DIRECT[..4]
    case Returned => done == Served(c)
    case Failed => GaveUp(c, [], done)
    case Removed => done == Served(c) + CLEAN_UP[..1]
    case Archived => done == Served(c) + CLEAN_UP[..2]
    case ClosedOut => done == Served(c) + CLEAN_UP[..3]
    case EndedClosed => done == Served(c) + CLEAN_UP
    case Unlisted => GaveUp(c, [Removes], done)
    case EndedUnlisted => GaveUp(c, [Removes, Releases], done)
  }

  lemma OneMore(early: seq<Kind>, script: seq<Kind>, k: nat)
    requires k < |script|
    ensures early + script[..k] + [script[k]] == early + script[..k + 1]
    ensures k + 1 == |script| ==> early + script[..k] + [script[k]] == early + script
    ensures early + script[..0] == early
  {
  }

  // A session's next step, phase by phase.

  lemma AdmissionStep(s: State, a: Action, done: seq<Kind>)
    requires Enabled(s, a) && Actor(a).Some? && !a.Connect? && Follows(s.sessions[a.t], done)
    requires a.Auth? || a.Upsert? || a.Acquire? || a.Pick? || a.SendOpen?
    ensures Follows(SessionAfter(s, a), done + [KindOf(a)])
  {
    assert ADMISSION[..1] + [Auths] == ADMISSION[..2] && ADMISSION[..2] + [Upserts] == ADMISSION[..3];
    assert ADMISSION[..3] + [Acquires] == ADMISSION;
    assert ADMISSION + THROUGH_NODE[..1] + [SendsOpen] == ADMISSION + [Picks, SendsOpen];
    assert ADMISSION + [Picks] == ADMISSION + THROUGH_NODE[..1];
    assert ADMISSION + [Picks, SendsOpen] == ADMISSION + THROUGH_NODE[..2];
  }

  lemma ViaStep(s: State, a: Action, done: seq<Kind>)
    requires Enabled(s, a) && Actor(a).Some? && !a.Connect? && Follows(s.sessions[a.t], done)
    requires a.InsertVia? || a.Count? || a.AnnounceVia? || a.AckVia? || a.LeaveVia? || a.SendClose? || a.Uncount?
    requires s.sessions[a.t].via
    ensures Follows(SessionAfter(s, a), done + [KindOf(a)])
  {
    var k := |done| - |ADMISSION|;
    OneMore(ADMISSION, THROUGH_NODE, k);
  }

  lemma DirectStep(s: State, a: Action, done: seq<Kind>)
    requires Enabled(s, a) && Actor(a).Some? && !a.Connect? && Follows(s.sessions[a.t], done)
    requires a.Bind? || a.AckDirect? || a.InsertDirect? || a.AnnounceDirect? || a.LeaveDirect?
    requires !s.sessions[a.t].via
    ensures Follows(SessionAfter(s, a), done + [KindOf(a)])
  {
    var early := Turned(s.sessions[a.t]);
    var k := |done| - |early|;
    OneMore(early, DIRECT, 0);
    OneMore(early, DIRECT, k);
    assert early + DIRECT[..1] + [] == early + DIRECT[..1] && early + DIRECT[..2] + [] == early + DIRECT[..2];
  }

  lemma CleanUpStep(s: State, a: Action, done: seq<Kind>)
    requires Enabled(s, a) && Actor(a).Some? && !a.Connect? && Follows(s.sessions[a.t], done)
    requires a.Remove? || a.Archive? || a.AnnounceClosed? || a.Release?
    requires EntryExact(s, a.t) && s.sessions[a.t].pc != Failed && s.sessions[a.t].pc != Unlisted
    ensures Follows(SessionAfter(s, a), done + [KindOf(a)])
  {
    var early := Served(s.sessions[a.t]);
    OneMore(early, CLEAN_UP, 0);
    OneMore(early, CLEAN_UP, |done| - |early|);
  }

  lemma GiveUpStep(s: State, a: Action, done: seq<Kind>)
    requires Enabled(s, a) && Actor(a).Some? && !a.Connect? && Follows(s.sessions[a.t], done)
    requires (a.Remove? && s.sessions[a.t].pc == Failed) || (a.Release? && s.sessions[a.t].pc == Unlisted)
    requires EntryExact(s, a.t)
    ensures Follows(SessionAfter(s, a), done + [KindOf(a)])
  {
    var c := s.sessions[a.t];
    var short, long := Turned(c) + DIRECT[..1], Turned(c) + DIRECT[..2];
    assert short + [] + [Removes] == short + [Removes] && long + [] + [Removes] == long + [Removes];
    assert short + [Removes] + [Releases] == short + [Removes, Releases];
    assert long + [Removes] + [Releases] == long + [Removes, Releases];
  }

  lemma FollowsStep(s: State, a: Action, done: seq<Kind>)
    requires Enabled(s, a) && Actor(a).Some? && !a.Connect? && Follows(s.sessions[a.t], done)
    requires EntryExact(s, a.t) && SessionOk(s, a.t, s.sessions[a.t])
    ensures Follows(SessionAfter(s, a), done + [KindOf(a)])
  {
    var pc := s.sessions[a.t].pc;
    if a.Auth? || a.Upsert? || a.Acquire? || a.Pick? || a.SendOpen? {
      AdmissionStep(s, a, done);
    } else if a.Bind? || a.AckDirect? || a.InsertDirect? || a.AnnounceDirect? || a.LeaveDirect? {
      DirectStep(s, a, done);
    } else if pc == Failed || pc == Unlisted {
      GiveUpStep(s, a, done);
    } else if a.Remove? || a.Archive? || a.AnnounceClosed? || a.Release? {
      CleanUpStep(s, a, done);
    } else {
      ViaStep(s, a, done);
    }
  }

  /**
   Scripts. In every run, what a session has done so far, in order, is the script of where it
   stands: admission; then through its node, or turned to the direct path; then the clean-up.
   In particular a port is released last, after the tunnel has left the table, been archived
   and announced as closed, and whoever has a port and ends has released it.
   */
  lemma {:induction false} SessionScript(cfg: Config, run: seq<Action>, s: State, t: Tid)
    requires Reached(cfg, run, s)
    ensures if t in s.sessions then Follows(s.sessions[t], Own(run, t)) else Own(run, t) == []
    decreases |run|
  {
    if run != [] {
      var before, a := run[..|run| - 1], run[|run| - 1];
      assert run == before + [a];
      Unstep(cfg, before, a);
      var b := Exec(Init(cfg), before);
      SessionScript(cfg, before, b, t);
      LastStep(cfg, before, b, a, t);
    }
  }

  lemma LastStep(cfg: Config, before: seq<Action>, b: State, a: Action, t: Tid)
    requires Reached(cfg, before, b) && Enabled(b, a)
    requires if t in b.sessions then Follows(b.sessions[t], Own(before, t)) else Own(before, t) == []
    ensures var s, run := Apply(b, a), before + [a];
            if t in s.sessions then Follows(s.sessions[t], Own(run, t)) else Own(run, t) == []
  {
    assert (before + [a])[..|before|] == before;
    if Actor(a) == Some(t) {
      ReachedInv(cfg, before, b);
      if a.Connect? {
        assert [] + [Connects] == ADMISSION[..1];
      } else {
        assert SessionOk(b, t, b.sessions[t]) && EntryExact(b, t);
        FollowsStep(b, a, Own(before, t));
      }
    } else {
      assert Own(before, t) + [] == Own(before, t);
    }
  }

  // ---- Node sessions ----

  datatype NodeKind = Joins | Acknowledges | DropsUnacked | Announces | Drops | BidsFarewell

  function NodeKindOf(a: Action): NodeKind
    requires Actor(a).None?
  {
    match a
    case Join(_, _, _, _) => Joins
    case AckNode(_, _) => Acknowledges
    case DropUnacked(_) => DropsUnacked
    case AnnounceNode(_) => Announces
    case DropNode(_) => Drops
    case Farewell(_) => BidsFarewell
  }

  predicate NodeStep(a: Action, n: nat) {
    Actor(a).None? && a.n == n
  }

  /** What one node session has done in a run, in order. */
  function NodeOwn(run: seq<Action>, n: nat): seq<NodeKind> {
    if run == [] then []
    else NodeOwn(run[..|run| - 1], n) + if NodeStep(run[|run| - 1], n) then [NodeKindOf(run[|run| - 1])] else []
  }

  const NODE_SERVED := [Joins, Acknowledges, Announces, Drops, BidsFarewell]
  const NODE_UNANSWERED := [Joins, Acknowledges, DropsUnacked]

  predicate NodeFollows(pc: NodePc, done: seq<NodeKind>) {
    match pc
    case Joined => done == NODE_SERVED[..1]
    case Acked => done == NODE_SERVED[..2]
    case Unacked => done == NODE_UNANSWERED[..2]
    case Serving => done == NODE_SERVED[..3]
    case Gone => done == NODE_SERVED[..4]
    case Ended => done == NODE_SERVED || done == NODE_UNANSWERED
  }

  lemma NodeFollowsStep(s: State, a: Action, done: seq<NodeKind>)
    requires Enabled(s, a) && Actor(a).None? && !a.Join?
    requires a.n in s.chans && NodeFollows(s.chans[a.n].pc, done)
    ensures NodeFollows(ChansAfter(s, a)[a.n].pc, done + [NodeKindOf(a)])
  {
    assert NODE_SERVED[..1] + [Acknowledges] == NODE_SERVED[..2] == NODE_UNANSWERED[..2];
    assert NODE_SERVED[..2] + [Announces] == NODE_SERVED[..3] && NODE_SERVED[..3] + [Drops] == NODE_SERVED[..4];
    assert NODE_SERVED[..4] + [BidsFarewell] == NODE_SERVED;
    assert NODE_UNANSWERED[..2] + [DropsUnacked] == NODE_UNANSWERED;
  }

  /** A node's stream is there exactly from its registration on, and only its own session moves its phase. */
  lemma NodePhases(s: State, a: Action, n: nat)
    requires Enabled(s, a) && !NodeStep(a, n)
    ensures n in ChansAfter(s, a) <==> n in s.chans
    ensures n in s.chans ==> ChansAfter(s, a)[n].pc == s.chans[n].pc
  {
  }

  lemma LastNodeStep(before: seq<Action>, b: State, a: Action, n: nat)
    requires Enabled(b, a)
    requires if n in b.chans then NodeFollows(b.chans[n].pc, NodeOwn(before, n)) else NodeOwn(before, n) == []
    ensures var chans, run := ChansAfter(b, a), before + [a];
            if n in chans then NodeFollows(chans[n].pc, NodeOwn(run, n)) else NodeOwn(run, n) == []
  {
    assert (before + [a])[..|before|] == before;
    if NodeStep(a, n) {
      if a.Join? {
        assert [] + [Joins] == NODE_SERVED[..1];
      } else {
        NodeFollowsStep(b, a, NodeOwn(before, n));
      }
    } else {
      NodePhases(b, a, n);
      assert NodeOwn(before, n) + [] == NodeOwn(before, n);
    }
  }

  /** In every run, what a node session has done so far, in order, is the script of where it stands. */
  lemma {:induction false} NodeScript(cfg: Config, run: seq<Action>, s: State, n: nat)
    requires Reached(cfg, run, s)
    ensures if n in s.chans then NodeFollows(s.chans[n].pc, NodeOwn(run, n)) else NodeOwn(run, n) == []
    decreases |run|
  {
    if run != [] {
      var before, a := run[..|run| - 1], run[|run| - 1];
      assert run == before + [a];
      Unstep(cfg, before, a);
      var b := Exec(Init(cfg), before);
      NodeScript(cfg, before, b, n);
      LastNodeStep(before, b, a, n);
    }
  }
}
