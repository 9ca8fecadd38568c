/** Forward and reverse edges: when they mirror each other, and which lock sections keep it so. */
module Edges {
  import opened Prelude
  import opened Graph

  /** Forward edge: `d` lists `x` as a dependency. */
  predicate Reads(nodes: Nodes, d: Id, x: Id) {
    d in nodes && x in Dependencies(nodes[d])
  }

  ghost predicate ListsOk(nodes: Nodes, x: Id) {
    x in nodes ==> NoDup(Dependents(nodes[x])) && NoDup(Dependencies(nodes[x]))
  }

  ghost predicate Mutual(nodes: Nodes, x: Id, d: Id) {
    Edge(nodes, x, d) <==> Reads(nodes, d, x)
  }

  /** Forward and reverse edges are mutual and duplicate-free; in particular they name live nodes only. */
  ghost predicate Symmetric(nodes: Nodes) {
    && (forall x {:trigger ListsOk(nodes, x)} :: ListsOk(nodes, x))
    && (forall x, d {:trigger Mutual(nodes, x, d)} :: Mutual(nodes, x, d))
  }

  /** Readable nodes: everything but effects. */
  ghost predicate Readable(nodes: Nodes, x: Id) {
    x in nodes && !nodes[x].Effect?
  }

  ghost predicate Reader(nodes: Nodes, d: Id) {
    d in nodes && !nodes[d].Source?
  }

  /** No survivor names a node that does not exist. */
  lemma SymmetricNamesLive(nodes: Nodes, x: Id, d: Id)
    requires Symmetric(nodes)
    ensures Edge(nodes, x, d) ==> Readable(nodes, x) && Reader(nodes, d)
  {
    assert Mutual(nodes, x, d);
  }

  /** An edge that only one of its ends knows of. */
  lemma OneSided(nodes: Nodes, x: Id, d: Id)
    requires Edge(nodes, x, d) != Reads(nodes, d, x)
    ensures !Symmetric(nodes)
  {
    assert !Mutual(nodes, x, d);
  }

  lemma InsertedEdges(nodes: Nodes, x: Id, d: Id, y: Id, e: Id)
    requires x != d
    ensures Edge(Register(nodes, x, d), y, e) <==> Edge(nodes, y, e) || (y == x && e == d && Readable(nodes, x))
    ensures Reads(Register(nodes, x, d), e, y) <==> Reads(nodes, e, y) || (y == x && e == d && Reader(nodes, d))
    ensures ListsOk(nodes, y) ==> ListsOk(Register(nodes, x, d), y)
  {
    if x in nodes {
      EdgeInsertFacts(Dependents(nodes[x]), d);
    }
    if d in nodes {
      EdgeInsertFacts(Dependencies(nodes[d]), x);
    }
  }

  /** Registering a read keeps the edges symmetric exactly when both ends take their half of it, or neither does. */
  lemma RegisterSymmetricIff(nodes: Nodes, x: Id, d: Id)
    requires Symmetric(nodes) && x != d
    ensures Symmetric(Register(nodes, x, d)) <==> (Reader(nodes, d) <==> Readable(nodes, x))
  {
    var nodes' := Register(nodes, x, d);
    forall y, e ensures Mutual(nodes', y, e) <==> (y == x && e == d ==> (Reader(nodes, d) <==> Readable(nodes, x))) {
      InsertedEdges(nodes, x, d, y, e);
      assert Mutual(nodes, y, e);
      SymmetricNamesLive(nodes, x, d);
    }
    forall y ensures ListsOk(nodes', y) {
      InsertedEdges(nodes, x, d, y, y);
      assert ListsOk(nodes, y);
    }
    assert Symmetric(nodes') ==> Mutual(nodes', x, d);
  }

  /** The edges after `owner` has been rewired to read exactly `tracked`. */
  lemma RewiredEdges(nodes: Nodes, owner: Id, tracked: seq<Id>, x: Id, d: Id)
    requires Reader(nodes, owner) && ListsOk(nodes, x) && Mutual(nodes, x, owner) && NoDup(tracked)
    ensures
      var nodes' := UpdateDependencies(nodes, owner, tracked);
      && ListsOk(nodes', x)
      && (Edge(nodes', x, d) <==> if d == owner then x in tracked && Readable(nodes, x) else Edge(nodes, x, d))
      && (Reads(nodes', d, x) <==> if d == owner then x in tracked else Reads(nodes, d, x))
  {
    if x in nodes {
      EdgeRemoveFacts(Dependents(nodes[x]), owner);
      EdgeInsertFacts(Dependents(nodes[x]), owner);
    }
  }

  /** Rewiring keeps the edges symmetric exactly when everything tracked is still readable. */
  lemma RewireSymmetricIff(nodes: Nodes, owner: Id, tracked: seq<Id>)
    requires Symmetric(nodes) && Reader(nodes, owner) && NoDup(tracked)
    ensures Symmetric(UpdateDependencies(nodes, owner, tracked)) <==> forall x :: x in tracked ==> Readable(nodes, x)
  {
    var nodes' := UpdateDependencies(nodes, owner, tracked);
    forall x
      ensures ListsOk(nodes', x)
      ensures Mutual(nodes', x, owner) <==> (x in tracked ==> Readable(nodes, x))
    {
      assert ListsOk(nodes, x) && Mutual(nodes, x, owner);
      RewiredEdges(nodes, owner, tracked, x, owner);
    }
    forall x, d | d != owner ensures Mutual(nodes', x, d) {
      assert ListsOk(nodes, x) && Mutual(nodes, x, owner) && Mutual(nodes, x, d);
      RewiredEdges(nodes, owner, tracked, x, d);
    }
    if Symmetric(nodes') {
      forall x | x in tracked ensures Readable(nodes, x) {
        assert Mutual(nodes', x, owner);
      }
    }
  }

  lemma {:induction false} DropReverseFacts(nodes: Nodes, deps: seq<Id>, id: Id)
    requires forall x :: ListsOk(nodes, x)
    ensures DropReverse(nodes, deps, id).Keys == nodes.Keys
    ensures forall x :: x in nodes ==>
              DropReverse(nodes, deps, id)[x] == if x in deps then RemoveDependent(nodes[x], id) else nodes[x]
    decreases |deps|
  {
    if deps != [] {
      var y := deps[0];
      var nodes1 := if y in nodes then nodes[y := RemoveDependent(nodes[y], id)] else nodes;
      assert ListsOk(nodes, y);
      if y in nodes {
        EdgeRemoveFacts(Dependents(nodes[y]), id);
        assert RemoveDependent(RemoveDependent(nodes[y], id), id) == RemoveDependent(nodes[y], id);
      }
      forall x ensures ListsOk(nodes1, x) {
        assert ListsOk(nodes, x);
      }
      DropReverseFacts(nodes1, deps[1..], id);
    }
  }

  lemma {:induction false} DropForwardFacts(nodes: Nodes, dependents: seq<Id>, id: Id)
    requires forall x :: ListsOk(nodes, x)
    ensures DropForward(nodes, dependents, id).Keys == nodes.Keys
    ensures forall x :: x in nodes ==>
              DropForward(nodes, dependents, id)[x] ==
                  if x in dependents then RemoveDependency(nodes[x], id) else nodes[x]
    decreases |dependents|
  {
    if dependents != [] {
      var y := dependents[0];
      var nodes1 := if y in nodes then nodes[y := RemoveDependency(nodes[y], id)] else nodes;
      assert ListsOk(nodes, y);
      if y in nodes {
        EdgeRemoveFacts(Dependencies(nodes[y]), id);
        assert RemoveDependency(RemoveDependency(nodes[y], id), id) == RemoveDependency(nodes[y], id);
      }
      forall x ensures ListsOk(nodes1, x) {
        assert ListsOk(nodes, x);
      }
      DropForwardFacts(nodes1, dependents[1..], id);
    }
  }

  /** Every survivor forgets `id`, keeps every other edge, and keeps its content. */
  ghost predicate Forgets(nodes: Nodes, nodes': Nodes, id: Id) {
    && nodes'.Keys == nodes.Keys - {id}
    && (forall x :: x in nodes' ==> SameButEdges(nodes[x], nodes'[x]))
    && (forall x {:trigger ListsOk(nodes', x)} :: ListsOk(nodes', x))
    && (forall x, d :: Edge(nodes', x, d) <==> Edge(nodes, x, d) && x != id && d != id)
    && (forall x, d :: Reads(nodes', d, x) <==> Reads(nodes, d, x) && x != id && d != id)
  }

  /** One survivor after the removals that a disposal of `id` performs on it. */
  lemma SurvivorLists(nodes: Nodes, id: Id, x: Id, n1: Node, n2: Node)
    requires Symmetric(nodes) && id in nodes && x in nodes && x != id
    requires n1 == if x in Dependencies(nodes[id]) then RemoveDependent(nodes[x], id) else nodes[x]
    requires n2 == if x in Dependents(nodes[id]) then RemoveDependency(n1, id) else n1
    ensures SameButEdges(nodes[x], n2)
    ensures NoDup(Dependents(n2)) && NoDup(Dependencies(n2))
    ensures forall d :: d in Dependents(n2) <==> d in Dependents(nodes[x]) && d != id
    ensures forall d :: d in Dependencies(n2) <==> d in Dependencies(nodes[x]) && d != id
  {
    assert ListsOk(nodes, x) && Mutual(nodes, x, id) && Mutual(nodes, id, x);
    EdgeRemoveFacts(Dependents(nodes[x]), id);
    EdgeRemoveFacts(Dependencies(nodes[x]), id);
  }

  lemma DetachForgets(nodes: Nodes, id: Id)
    requires Symmetric(nodes) && id in nodes
    ensures Forgets(nodes, Detach(nodes, id, nodes[id]), id)
  {
    var n := nodes[id];
    var nodes0 := nodes - {id};
    forall x ensures ListsOk(nodes0, x) {
      assert ListsOk(nodes, x);
    }
    DropReverseFacts(nodes0, Dependencies(n), id);
    var nodes1 := DropReverse(nodes0, Dependencies(n), id);
    forall x ensures ListsOk(nodes1, x) {
      assert ListsOk(nodes, x);
      if x in nodes1 {
        EdgeRemoveFacts(Dependents(nodes[x]), id);
      }
    }
    DropForwardFacts(nodes1, Dependents(n), id);
    var nodes2 := Detach(nodes, id, n);
    forall x | x in nodes && x != id
      ensures SameButEdges(nodes[x], nodes2[x]) && ListsOk(nodes2, x)
      ensures forall d :: d in Dependents(nodes2[x]) <==> d in Dependents(nodes[x]) && d != id
      ensures forall d :: d in Dependencies(nodes2[x]) <==> d in Dependencies(nodes[x]) && d != id
    {
      SurvivorLists(nodes, id, x, nodes1[x], nodes2[x]);
    }
  }

  /** `dispose_async_effect` detaches an effect just as completely. */
  lemma DropEffectForgets(nodes: Nodes, id: Id)
    requires Symmetric(nodes) && IsEffect(nodes, id)
    ensures Forgets(nodes, DropReverse(nodes, nodes[id].dependencies, id) - {id}, id)
  {
    var nodes' := DropReverse(nodes, nodes[id].dependencies, id) - {id};
    DropReverseFacts(nodes, nodes[id].dependencies, id);
    forall x | x in nodes && x != id
      ensures SameButEdges(nodes[x], nodes'[x]) && ListsOk(nodes', x)
      ensures forall d :: d in Dependents(nodes'[x]) <==> d in Dependents(nodes[x]) && d != id
      ensures forall d :: d in Dependencies(nodes'[x]) <==> d in Dependencies(nodes[x]) && d != id
    {
      SurvivorLists(nodes, id, x, nodes'[x], nodes'[x]);
    }
  }

  lemma ForgettingIsSymmetric(nodes: Nodes, nodes': Nodes, id: Id)
    requires Symmetric(nodes) && Forgets(nodes, nodes', id)
    ensures Symmetric(nodes')
  {
    forall x, d ensures Mutual(nodes', x, d) {
      assert Mutual(nodes, x, d);
    }
  }

  /** The graph after the locked part of any typed dispose. */
  function AfterDispose(g: Graph, h: Handle, kind: Kind): Graph {
    if kind == EffectKind then DisposeEffect(g, h).0 else DisposeNode(g, h, kind).0
  }

  /** A disposal removes its node, and changes no other but for its edges. */
  lemma DisposeSame(g: Graph, h: Handle, kind: Kind)
    requires Names(g, h, kind)
    ensures AfterDispose(g, h, kind).nodes.Keys == g.nodes.Keys - {h.id}
    ensures forall x :: x in g.nodes && x != h.id ==> SameButEdges(g.nodes[x], AfterDispose(g, h, kind).nodes[x])
  {
    var n := g.nodes[h.id];
    if kind == EffectKind {
      DropSame(g.nodes, n.dependencies, h.id);
    } else {
      DropSame(g.nodes - {h.id}, Dependencies(n), h.id);
      DropSame(DropReverse(g.nodes - {h.id}, Dependencies(n), h.id), Dependents(n), h.id);
    }
  }

  /** Disposing a node keeps the edges of every survivor symmetric. */
  lemma DisposeSymmetric(g: Graph, h: Handle, kind: Kind)
    requires Symmetric(g.nodes) && Names(g, h, kind)
    ensures Forgets(g.nodes, AfterDispose(g, h, kind).nodes, h.id)
    ensures Symmetric(AfterDispose(g, h, kind).nodes)
  {
    if kind == EffectKind {
      DropEffectForgets(g.nodes, h.id);
    } else {
      DetachForgets(g.nodes, h.id);
      assert Detach(g.nodes, h.id, g.nodes[h.id]) - {h.id} == Detach(g.nodes, h.id, g.nodes[h.id]);
    }
    ForgettingIsSymmetric(g.nodes, AfterDispose(g, h, kind).nodes, h.id);
  }

  lemma HitSymmetric(nodes: Nodes, hit: set<Id>)
    requires Symmetric(nodes)
    ensures Symmetric(InvalidateSet(nodes, hit))
  {
    var nodes' := InvalidateSet(nodes, hit);
    forall x, d ensures Mutual(nodes', x, d) {
      assert Mutual(nodes, x, d);
    }
    forall x ensures ListsOk(nodes', x) {
      assert ListsOk(nodes, x);
    }
  }

  /** What was downstream of a disposed node is downstream of the readers it leaves behind. */
  lemma ConeSurvives(nodes: Nodes, nodes': Nodes, id: Id, roots: set<Id>)
    requires Forgets(nodes, nodes', id) && id in nodes && roots == Elems(Dependents(nodes[id]))
    ensures Cone(nodes, roots) <= Cone(nodes', roots) + {id}
  {
    ConeIsClosed(nodes', roots);
    var inside := Cone(nodes', roots) + {id};
    forall e | IsComputed(nodes, e) && e != id ensures IsComputed(nodes', e) {
      assert SameButEdges(nodes[e], nodes'[e]);
    }
    forall c, e | c in inside && IsComputed(nodes, c) && Edge(nodes, c, e) && IsComputed(nodes, e) ensures e in inside {
      if e != id && c != id {
        assert Edge(nodes', c, e);
      }
    }
    ConeIsLeast(nodes, roots, inside);
  }

  /**
   Clean disposal, both sections together: no survivor names the retired id in either
   direction, and every slot that was downstream of it has been emptied.
   */
  lemma DisposalIsClean(g: Graph, h: Handle, kind: Kind, d: Id)
    requires Symmetric(g.nodes) && Names(g, h, kind) && kind != EffectKind && d in g.nodes && d != h.id
    ensures
      var (g1, stale) := DisposeNode(g, h, kind);
      var after := Walk(g1.nodes, Elems(stale));
      && h.id !in after && d in after
      && h.id !in Dependents(after[d]) && h.id !in Dependencies(after[d])
      && (d in Cone(g.nodes, Elems(Dependents(g.nodes[h.id]))) ==> after[d].Computed? && after[d].state == Empty)
  {
    var (g1, stale) := DisposeNode(g, h, kind);
    DisposeSymmetric(g, h, kind);
    ConeSurvives(g.nodes, g1.nodes, h.id, Elems(stale));
    WalkIsExact(g1.nodes, Elems(stale), d);
    assert !Edge(g1.nodes, d, h.id) && !Reads(g1.nodes, d, h.id);
  }
}
