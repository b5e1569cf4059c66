/** The load counters of the node registry: exact at every instant, balanced up to the
    number of sessions caught between `pick` and `increment_tunnels`. */
module ControlCounts {
  import opened Wrappers
  import opened Nodes
  import opened Control
  import opened ControlShape

  // ---- Cardinalities ----

  lemma {:induction false} SubsetCardinality<T>(small: set<T>, large: set<T>)
    requires small <= large
    ensures |small| <= |large|
  {
    assert large == small + (large - small);
  }

  // ---- Exact counters ----

  /** Past `increment_tunnels` and before `decrement_tunnels`. */
  predicate Counted(pc: Pc) {
    pc.CountedVia? || pc.AnnouncedVia? || pc.ServingVia? || pc.LeavingVia? || pc.CloseSent?
  }

  ghost predicate CountedAt(s: State, t: Tid, n: Nid) {
    t in s.sessions && Counted(s.sessions[t].pc) && s.sessions[t].node.Some? && s.sessions[t].node.value.nid == n
  }

  ghost function CountedOn(s: State, n: Nid): set<Tid> {
    set t | t in s.sessions && CountedAt(s, t, n)
  }

  ghost predicate CountsExact(s: State) {
    forall n | n in s.nodes :: s.nodes[n].tunnelCount == |CountedOn(s, n)|
  }

  /** Only the two counter steps move a session into or out of the counted phases. */
  lemma CountedKept(s: State, a: Action)
    requires Enabled(s, a) && !a.Count? && !a.Uncount? && Actor(a).Some?
    ensures var t := Actor(a).value; var c := SessionAfter(s, a);
            && (Counted(c.pc) <==> t in s.sessions && Counted(s.sessions[t].pc))
            && (Counted(c.pc) ==> c.node == s.sessions[t].node)
  {
  }

  lemma CountedSetsKept(s: State, a: Action, n: Nid)
    requires Enabled(s, a) && !a.Count? && !a.Uncount?
    ensures CountedOn(Apply(s, a), n) == CountedOn(s, n)
  {
    if Actor(a).Some? {
      CountedKept(s, a);
    }
    var s' := Apply(s, a);
    assert forall t :: CountedAt(s', t, n) <==> CountedAt(s, t, n);
  }

  lemma CountedSetsMoved(s: State, a: Action, n: Nid)
    requires Shape(s) && Enabled(s, a) && (a.Count? || a.Uncount?)
    ensures var on := s.sessions[a.t].node.value.nid;
            && (a.Count? ==> a.t !in CountedOn(s, n)
                             && CountedOn(Apply(s, a), n) == CountedOn(s, n) + if n == on then {a.t} else {})
            && (a.Uncount? ==> (a.t in CountedOn(s, n) <==> n == on)
                               && CountedOn(Apply(s, a), n) == CountedOn(s, n) - {a.t})
  {
    var s' := Apply(s, a);
    assert forall t | t != a.t :: CountedAt(s', t, n) <==> CountedAt(s, t, n);
  }

  /** A node id that was never drawn has no counted session: a fresh counter of zero is exact. */
  lemma FreshUncounted(s: State, n: Nid)
    requires Shape(s) && n !in s.chans
    ensures CountedOn(s, n) == {}
  {
    forall t | t in s.sessions ensures !CountedAt(s, t, n) {
      assert SessionOk(s, t, s.sessions[t]);
    }
  }

  /** What a step does to one counter. */
  lemma CounterMoves(s: State, a: Action, n: Nid)
    requires Enabled(s, a) && n in NodesAfter(s, a)
    ensures var count := NodesAfter(s, a)[n].tunnelCount;
            if n !in s.nodes then a.Join? && n !in s.chans && count == 0
            else if (a.Count? || a.Uncount?) && s.sessions[a.t].node.value.nid == n
            then count == (if a.Count? then s.nodes[n].tunnelCount + 1
                           else if s.nodes[n].tunnelCount == 0 then 0 else s.nodes[n].tunnelCount - 1)
            else count == s.nodes[n].tunnelCount
  {
  }

  lemma CountsStep(s: State, a: Action)
    requires Shape(s) && CountsExact(s) && Enabled(s, a)
    ensures CountsExact(Apply(s, a))
  {
    forall n | n in NodesAfter(s, a) ensures NodesAfter(s, a)[n].tunnelCount == |CountedOn(Apply(s, a), n)| {
      CounterMoves(s, a, n);
      if a.Count? || a.Uncount? {
        CountedSetsMoved(s, a, n);
      } else {
        CountedSetsKept(s, a, n);
        if n !in s.nodes {
          FreshUncounted(s, n);
        }
      }
    }
  }

  /** The saturating subtraction never saturates: whenever it finds the node, it finds a positive count. */
  lemma NeverSaturates(s: State, t: Tid)
    requires Shape(s) && CountsExact(s) && Enabled(s, Uncount(t))
    requires s.sessions[t].node.value.nid in s.nodes
    ensures s.nodes[s.sessions[t].node.value.nid].tunnelCount > 0
  {
    var n := s.sessions[t].node.value.nid;
    assert CountedAt(s, t, n);
    assert t in CountedOn(s, n);
  }

  // ---- Balance ----

  /** Between `pick` and `increment_tunnels`. */
  predicate InFlight(pc: Pc) {
    pc.Picked? || pc.OpenSent? || pc.InsertedVia?
  }

  ghost predicate InFlightAt(s: State, t: Tid) {
    t in s.sessions && InFlight(s.sessions[t].pc)
  }

  ghost function InFlightSet(s: State): set<Tid> {
    set t | t in s.sessions && InFlightAt(s, t)
  }

  ghost function InFlightOn(s: State, n: Nid): set<Tid> {
    set t | t in s.sessions && InFlightAt(s, t) && s.sessions[t].node.Some? && s.sessions[t].node.value.nid == n
  }

  /** Two registered nodes of the same name. */
  ghost predicate SameGroup(s: State, n: Nid, m: Nid) {
    n in s.nodes && m in s.nodes && s.nodes[n].name == s.nodes[m].name
  }

  /** The inductive form of the bound: what a node has plus what is on its way to it. */
  ghost predicate Balanced(s: State, k: nat) {
    forall n, m | SameGroup(s, n, m) ::
      s.nodes[n].tunnelCount + |InFlightOn(s, n)| <= s.nodes[m].tunnelCount + k
  }

  /** No tunnel leaves its node and no node joins. */
  predicate Opening(a: Action) {
    !a.Uncount? && !a.Join?
  }

  /** At most `k` sessions are in flight at every point of the run. */
  ghost predicate Crowded(s: State, run: seq<Action>, k: nat)
    requires Valid(s, run)
    decreases |run|
  {
    && |InFlightSet(s)| <= k
    && (run != [] ==> Opening(run[0]) && Crowded(Apply(s, run[0]), run[1..], k))
  }

  ghost predicate InFlightOnAt(s: State, t: Tid, n: Nid) {
    InFlightAt(s, t) && s.sessions[t].node.Some? && s.sessions[t].node.value.nid == n
  }

  lemma InFlightMoves(s: State, a: Action, n: Nid)
    requires Enabled(s, a)
    ensures var s' := Apply(s, a);
            && (a.Count? && s.sessions[a.t].node.value.nid == n ==>
                  a.t in InFlightOn(s, n) && InFlightOn(s', n) <= InFlightOn(s, n) - {a.t})
            && (a.Pick? && a.choice == Some(n) ==> InFlightOn(s', n) <= InFlightOn(s, n) + {a.t})
            && (!(a.Pick? && a.choice == Some(n)) ==> InFlightOn(s', n) <= InFlightOn(s, n))
  {
    var s' := Apply(s, a);
    if Actor(a).Some? {
      var t := Actor(a).value;
      InFlightOfActor(s, a);
      forall u | u != t ensures InFlightOnAt(s', u, n) <==> InFlightOnAt(s, u, n) {
      }
      assert InFlightOnAt(s', t, n) && !a.Pick? ==> InFlightOnAt(s, t, n);
      assert InFlightOnAt(s', t, n) && a.Pick? ==> a.choice == Some(n);
    }
    forall u | u in InFlightOn(s', n)
      ensures u in InFlightOn(s, n) || (a.Pick? && a.choice == Some(n) && u == a.t)
    {
      assert InFlightOnAt(s', u, n);
    }
  }

  lemma InFlightOfActor(s: State, a: Action)
    requires Enabled(s, a) && Actor(a).Some?
    ensures var t := Actor(a).value; var c := SessionAfter(s, a);
            && (InFlight(c.pc) && !a.Pick? ==>
                  t in s.sessions && InFlight(s.sessions[t].pc) && c.node == s.sessions[t].node)
            && (a.Pick? && InFlight(c.pc) ==> a.choice.Some? && c.node.Some? && c.node.value.nid == a.choice.value)
            && (a.Count? ==> InFlight(s.sessions[t].pc) && !InFlight(c.pc))
  {
  }

  lemma CountsOnlyRise(s: State, a: Action)
    requires Enabled(s, a) && Opening(a)
    ensures var s' := Apply(s, a);
            forall n | n in s'.nodes :: n in s.nodes && s'.nodes[n].name == s.nodes[n].name
              && s'.nodes[n].tunnelCount
                 == s.nodes[n].tunnelCount + if a.Count? && s.sessions[a.t].node.value.nid == n then 1 else 0
  {
  }

  lemma BalancedStep(s: State, a: Action, k: nat)
    requires Shape(s) && Balanced(s, k) && Enabled(s, a) && Opening(a)
    requires |InFlightSet(Apply(s, a))| <= k
    ensures Balanced(Apply(s, a), k)
  {
    var s' := Apply(s, a);
    CountsOnlyRise(s, a);
    forall n, m | SameGroup(s', n, m)
      ensures s'.nodes[n].tunnelCount + |InFlightOn(s', n)| <= s'.nodes[m].tunnelCount + k
    {
      assert SameGroup(s, n, m);
      InFlightMoves(s, a, n);
      if a.Pick? && a.choice == Some(n) {
        assert Candidate(s.nodes, s.sessions[a.t].reg.node, m);
        SubsetCardinality(InFlightOn(s', n), InFlightSet(s'));
      } else if a.Count? && s.sessions[a.t].node.value.nid == n {
        SubsetCardinality(InFlightOn(s', n), InFlightOn(s, n) - {a.t});
      } else {
        SubsetCardinality(InFlightOn(s', n), InFlightOn(s, n));
      }
    }
  }

  lemma {:induction false} BalancedRun(s: State, run: seq<Action>, k: nat)
    requires Shape(s) && Balanced(s, k) && Valid(s, run) && Crowded(s, run, k)
    ensures Balanced(Exec(s, run), k)
    decreases |run|
  {
    if run != [] {
      ShapeStep(s, run[0]);
      BalancedStep(s, run[0], k);
      BalancedRun(Apply(s, run[0]), run[1..], k);
    }
  }

  /** From counters all at zero, the bound holds along every crowded run. */
  lemma BalancedFromZero(s: State, run: seq<Action>, k: nat)
    requires Shape(s) && Valid(s, run) && Crowded(s, run, k)
    requires forall i | i in s.nodes :: s.nodes[i].tunnelCount == 0
    ensures Balanced(Exec(s, run), k)
  {
    forall i, j | SameGroup(s, i, j)
      ensures s.nodes[i].tunnelCount + |InFlightOn(s, i)| <= s.nodes[j].tunnelCount + k
    {
      SubsetCardinality(InFlightOn(s, i), InFlightSet(s));
    }
    BalancedRun(s, run, k);
  }
}
