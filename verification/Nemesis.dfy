// Fault actions and the connectivity matrix they act on.
module Nemesis {
  import opened Base

  type NodeId = nat

  datatype NemesisAction =
    | Partition(groups: seq<seq<NodeId>>)
    | AsymmetricPartition(source: NodeId, target: NodeId)
    | SetLink(source: NodeId, target: NodeId, up: bool)
    | HealAll
    | Crash(node: NodeId)
    | Restart(node: NodeId)
    | ClockSkew(node: NodeId, offset: int)
    | BitRot(node: NodeId)
    | TornWrite(node: NodeId)
    | LostOnCrash(node: NodeId)
    | PreFsyncReorder(node: NodeId)

  // Registered nodes and blocked directed edges.
  datatype Matrix = Matrix(nodes: set<NodeId>, blocked: set<(NodeId, NodeId)>)
  {
    predicate IsConnected(source: NodeId, target: NodeId) {
      source in nodes && target in nodes && (source, target) !in blocked
    }

    function AddNode(node: NodeId): Matrix {
      Matrix(nodes + {node}, blocked)
    }

    function Block(source: NodeId, target: NodeId): Matrix {
      Matrix(nodes, blocked + {(source, target)})
    }

    function SetLink(source: NodeId, target: NodeId, up: bool): Matrix {
      Matrix(nodes + {source, target}, if up then blocked - {(source, target)} else blocked + {(source, target)})
    }

    function Heal(): Matrix {
      Matrix(nodes, {})
    }

    // Groups that name a node twice put it in the last of them; nodes in no
    // group stay together.
    function Split(groups: seq<seq<NodeId>>): Matrix {
      var all := nodes + Members(groups);
      Matrix(all, set a, b | a in all && b in all && GroupOf(groups, a) != GroupOf(groups, b) :: (a, b))
    }
  }

  const DISCONNECTED: Matrix := Matrix({}, {})

  function Members(groups: seq<seq<NodeId>>): set<NodeId> {
    set g, k | 0 <= g < |groups| && 0 <= k < |groups[g]| :: groups[g][k]
  }

  function GroupOf(groups: seq<seq<NodeId>>, node: NodeId): Option<nat> {
    if groups == [] then None
    else if node in groups[|groups| - 1] then Some(|groups| - 1)
    else GroupOf(groups[..|groups| - 1], node)
  }

  // ----- the matrix in place -----

  class ConnectivityMatrix {
    var nodes: set<NodeId>
    var blocked: set<(NodeId, NodeId)>

    ghost function State(): Matrix
      reads this
    {
      Matrix(nodes, blocked)
    }

    constructor ()
      ensures State() == DISCONNECTED
    {
      nodes, blocked := {}, {};
    }

    constructor Of(matrix: Matrix)
      ensures State() == matrix
    {
      nodes, blocked := matrix.nodes, matrix.blocked;
    }

    method Snapshot() returns (matrix: Matrix)
      ensures matrix == State()
    {
      matrix := Matrix(nodes, blocked);
    }

    method BlockEdge(source: NodeId, target: NodeId)
      modifies `blocked
      ensures State() == old(State()).Block(source, target)
    {
      blocked := blocked + {(source, target)};
    }

    method HealAll()
      modifies `blocked
      ensures State() == old(State()).Heal()
    {
      blocked := {};
    }

    method SetOneLink(source: NodeId, target: NodeId, up: bool)
      modifies this
      ensures State() == old(State()).SetLink(source, target, up)
    {
      nodes := nodes + {source};
      nodes := nodes + {target};
      if up {
        blocked := blocked - {(source, target)};
      } else {
        blocked := blocked + {(source, target)};
      }
      assert old(nodes) + {source} + {target} == old(nodes) + {source, target};
    }

    method AssignGroups(groups: seq<seq<NodeId>>) returns (groupOf: map<NodeId, nat>)
      modifies `nodes
      ensures nodes == old(nodes) + Members(groups)
      ensures forall n: NodeId :: GroupOf(groups, n) == Lookup(groupOf, n)
    {
      groupOf := map[];
      for idx := 0 to |groups|
        invariant nodes == old(nodes) + Members(groups[..idx])
        invariant forall n: NodeId :: GroupOf(groups[..idx], n) == Lookup(groupOf, n)
      {
        var group := groups[idx];
        ghost var before, nodes0 := groupOf, nodes;
        for k := 0 to |group|
          invariant nodes == nodes0 + Elements(group[..k])
          invariant forall n: NodeId :: Lookup(groupOf, n) == if n in group[..k] then Some(idx) else Lookup(before, n)
        {
          assert group[..k+1] == group[..k] + [group[k]];
          groupOf := groupOf[group[k] := idx];
          nodes := nodes + {group[k]};
        }
        assert groups[..idx+1][..idx] == groups[..idx] && group[..|group|] == group;
        MembersGrow(groups, idx);
      }
      assert groups[..|groups|] == groups;
    }

    method Partition(groups: seq<seq<NodeId>>)
      modifies this
      ensures State() == old(State()).Split(groups)
    {
      blocked := {};
      var groupOf := AssignGroups(groups);
      ghost var done: set<NodeId> := {};
      var rest := nodes;
      while rest != {}
        invariant rest !! done && rest + done == nodes == old(nodes) + Members(groups)
        invariant blocked == CrossPairs(groups, done, nodes)
      {
        var source :| source in rest;
        BlockAcross(groups, groupOf, source, done);
        rest := rest - {source};
        done := done + {source};
      }
    }

    // The inner loop of `Partition`.
    method BlockAcross(ghost groups: seq<seq<NodeId>>, groupOf: map<NodeId, nat>, source: NodeId,
                       ghost done: set<NodeId>)
      requires source in nodes && blocked == CrossPairs(groups, done, nodes)
      requires forall n: NodeId :: GroupOf(groups, n) == Lookup(groupOf, n)
      modifies `blocked
      ensures blocked == CrossPairs(groups, done + {source}, nodes)
    {
      ghost var reached: set<NodeId> := {};
      var rest := nodes;
      while rest != {}
        invariant rest !! reached && rest + reached == nodes
        invariant blocked == CrossPairs(groups, done, nodes) + CrossPairs(groups, {source}, reached)
      {
        var target :| target in rest;
        if Lookup(groupOf, source) != Lookup(groupOf, target) {
          blocked := blocked + {(source, target)};
        }
        rest := rest - {target};
        reached := reached + {target};
      }
      assert reached == nodes;
    }
  }

  function Lookup(groupOf: map<NodeId, nat>, node: NodeId): Option<nat> {
    if node in groupOf then Some(groupOf[node]) else None
  }

  ghost function CrossPairs(groups: seq<seq<NodeId>>, sources: set<NodeId>, targets: set<NodeId>)
    : set<(NodeId, NodeId)>
  {
    set a, b | a in sources && b in targets && GroupOf(groups, a) != GroupOf(groups, b) :: (a, b)
  }

  ghost function Elements(group: seq<NodeId>): set<NodeId> {
    set n | n in group
  }

  lemma MemberIff(groups: seq<seq<NodeId>>, n: NodeId)
    ensures n in Members(groups) <==> exists g :: 0 <= g < |groups| && n in groups[g]
  {
    if g :| 0 <= g < |groups| && n in groups[g] {
      var k :| 0 <= k < |groups[g]| && groups[g][k] == n;
    }
  }

  lemma MembersGrow(groups: seq<seq<NodeId>>, idx: nat)
    requires idx < |groups|
    ensures Members(groups[..idx+1]) == Members(groups[..idx]) + Elements(groups[idx])
  {
    forall n: NodeId ensures n in Members(groups[..idx+1]) <==> n in Members(groups[..idx]) + Elements(groups[idx]) {
      MemberIff(groups[..idx+1], n);
      MemberIff(groups[..idx], n);
      assert groups[..idx+1] == groups[..idx] + [groups[idx]];
    }
  }

  // After a partition two nodes are connected exactly when both are known and
  // in the same group, whatever was blocked before; healing connects them all.
  lemma PartitionIsolates(m: Matrix, groups: seq<seq<NodeId>>, a: NodeId, b: NodeId)
    ensures var all := m.nodes + Members(groups);
            && (m.Split(groups).IsConnected(a, b) <==> a in all && b in all && GroupOf(groups, a) == GroupOf(groups, b))
            && (m.Split(groups).IsConnected(a, b) <==> m.Split(groups).IsConnected(b, a))
            && (m.Split(groups).Heal().IsConnected(a, b) <==> a in all && b in all)
  {
  }
}
