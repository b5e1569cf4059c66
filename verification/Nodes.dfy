/** The registry of connected edge nodes (crates/server/src/node_manager.rs). */
module Nodes {
  import opened Wrappers
  import opened Ports

  /** A server-generated node id; ids are never drawn twice. */
  type Nid = nat

  datatype NodeInfo = NodeInfo(name: string, host: string, dataPort: Port, tunnelCount: nat)

  type Registry = map<Nid, NodeInfo>

  predicate Candidate(nodes: Registry, want: Option<string>, n: Nid) {
    n in nodes && (want.None? || nodes[n].name == want.value)
  }

  /** `answer` is a least-loaded candidate, or there is no candidate at all. */
  predicate IsPick(nodes: Registry, want: Option<string>, answer: Option<Nid>) {
    match answer
    case Some(n) =>
      && Candidate(nodes, want, n)
      && forall m | m in nodes && Candidate(nodes, want, m) :: nodes[n].tunnelCount <= nodes[m].tunnelCount
    case None =>
      forall m | m in nodes :: !Candidate(nodes, want, m)
  }

  function Incremented(nodes: Registry, n: Nid): Registry {
    if n in nodes then nodes[n := nodes[n].(tunnelCount := nodes[n].tunnelCount + 1)] else nodes
  }

  /** Saturates at zero, as `saturating_sub` does. */
  function Decremented(nodes: Registry, n: Nid): Registry {
    if n in nodes
    then nodes[n := nodes[n].(tunnelCount := if nodes[n].tunnelCount == 0 then 0 else nodes[n].tunnelCount - 1)]
    else nodes
  }

  class NodeManager {
    var nodes: Registry

    constructor ()
      ensures nodes == map[]
    {
      nodes := map[];
    }

    /** `id` stands for the UUID the source draws. */
    method Register(id: Nid, name: string, host: string, dataPort: Port)
      requires id !in nodes
      modifies this
      ensures nodes == old(nodes)[id := NodeInfo(name, host, dataPort, 0)]
    {
      nodes := nodes[id := NodeInfo(name, host, dataPort, 0)];
    }

    method Remove(id: Nid)
      modifies this
      ensures nodes == old(nodes) - {id}
    {
      nodes := nodes - {id};
    }

    /** Scans the values in an arbitrary order and keeps the first least-loaded candidate. */
    method Pick(want: Option<string>) returns (answer: Option<Nid>)
      ensures IsPick(nodes, want, answer)
    {
      answer := None;
      var rest := nodes.Keys;
      while rest != {}
        invariant rest <= nodes.Keys
        invariant answer.Some? ==> Candidate(nodes, want, answer.value)
        invariant forall m | Candidate(nodes, want, m) && m !in rest ::
            answer.Some? && nodes[answer.value].tunnelCount <= nodes[m].tunnelCount
      {
        var n :| n in rest;
        rest := rest - {n};
        if Candidate(nodes, want, n) {
          if answer.None? || nodes[n].tunnelCount < nodes[answer.value].tunnelCount {
            answer := Some(n);
          }
        }
      }
    }

    method IncrementTunnels(id: Nid)
      modifies this
      ensures nodes == Incremented(old(nodes), id)
    {
      if id in nodes {
        nodes := nodes[id := nodes[id].(tunnelCount := nodes[id].tunnelCount + 1)];
      }
    }

    method DecrementTunnels(id: Nid)
      modifies this
      ensures nodes == Decremented(old(nodes), id)
    {
      if id in nodes {
        var count := nodes[id].tunnelCount;
        nodes := nodes[id := nodes[id].(tunnelCount := if count == 0 then 0 else count - 1)];
      }
    }
  }
}
