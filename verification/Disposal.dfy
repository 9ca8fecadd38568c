/** What a disposal leaves behind when its two lock sections lie apart and other threads act in between. */
module Disposal {
  import opened Prelude
  import opened Graph
  import opened Edges
  import opened Lifecycle

  /** Every node is still there with its kind, and no reverse edge has gone. */
  ghost predicate Grown(nodes: Nodes, nodes': Nodes) {
    && (forall x :: x in nodes ==> x in nodes' && KindOf(nodes'[x]) == KindOf(nodes[x]))
    && (forall x, d :: Edge(nodes, x, d) ==> Edge(nodes', x, d))
  }

  lemma ConeGrows(nodes: Nodes, nodes': Nodes, roots: set<Id>)
    requires Grown(nodes, nodes')
    ensures Cone(nodes, roots) <= Cone(nodes', roots)
  {
    ConeIsClosed(nodes', roots);
    forall x | IsComputed(nodes, x) ensures IsComputed(nodes', x) {
      assert KindOf(nodes'[x]) == KindOf(nodes[x]);
    }
    ConeIsLeast(nodes, roots, Cone(nodes', roots));
  }

  /** Neither a completion that writes nor a disposal that finds its node. */
  ghost predicate Quiet(w: World, a: Action) {
    match a
    case FinishSlot(t, _, _) => t < |w.tasks| ==> !Writes(w, t)
    case FinishEffect(t, _) => t < |w.tasks| ==> !Writes(w, t)
    case Dispose(h, kind) => !Names(w.g, h, kind)
    case _ => true
  }

  lemma QuietGrows(w: World, a: Action)
    requires IdentityInv(w) && Enabled(w, a) && Quiet(w, a)
    ensures Grown(w.g.nodes, Next(w, a).g.nodes)
  {
    match a
    case Make(n) => NewNodeIds(w.g, n);
    case Touch(t, x) => RegisterFacts(w.g.nodes, x, w.tasks[t].node);
    case _ =>
  }

  ghost predicate QuietBetween(ws: seq<World>, acts: seq<Action>, i: nat, m: nat)
    requires |ws| == |acts| + 1
  {
    forall j :: i <= j < m && j < |acts| ==> Quiet(ws[j], acts[j])
  }

  lemma NextGrows(ws: seq<World>, acts: seq<Action>, j: nat)
    requires IsExecution(ws, acts) && j < |acts| && Quiet(ws[j], acts[j])
    ensures Grown(ws[j].g.nodes, ws[j + 1].g.nodes)
  {
    IdentityReachable(ws, acts, j);
    QuietGrows(ws[j], acts[j]);
  }

  lemma {:induction false} AllGrow(nodes: seq<Nodes>, i: nat, m: nat)
    requires i <= m < |nodes| && forall j :: i <= j < m ==> Grown(nodes[j], nodes[j + 1])
    ensures Grown(nodes[i], nodes[m])
    decreases m - i
  {
    if i < m {
      AllGrow(nodes, i, m - 1);
      assert Grown(nodes[m - 1], nodes[m]);
    }
  }

  lemma QuietRunGrows(ws: seq<World>, acts: seq<Action>, i: nat, m: nat)
    requires IsExecution(ws, acts) && i <= m < |ws| && QuietBetween(ws, acts, i, m)
    ensures Grown(ws[i].g.nodes, ws[m].g.nodes)
  {
    var nodes := seq(|ws|, j requires 0 <= j < |ws| => ws[j].g.nodes);
    forall j | i <= j < m ensures Grown(nodes[j], nodes[j + 1]) {
      NextGrows(ws, acts, j);
    }
    AllGrow(nodes, i, m);
  }

  /** The walk of the second section empties every slot that it reaches. */
  lemma TeardownEmpties(w: World, k: nat, d: Id)
    requires k < |w.teardowns| && d in Cone(w.g.nodes, Elems(w.teardowns[k]))
    ensures IsComputed(Next(w, Teardown(k)).g.nodes, d) && Next(w, Teardown(k)).g.nodes[d].state == Empty
  {
    ConeIsClosed(w.g.nodes, Elems(w.teardowns[k]));
    WalkIsExact(w.g.nodes, Elems(w.teardowns[k]), d);
  }

  /**
   A source or slot is disposed from a symmetric state, and its teardown walk comes later. If no
   completion wrote and no other disposal succeeded in between, whatever else did happen, then
   after the walk every other slot of the disposed node's former cone is empty.
   */
  lemma DisposalEmptiesCone(ws: seq<World>, acts: seq<Action>, i: nat, m: nat, k: nat, d: Id)
    requires IsExecution(ws, acts) && i < m < |acts| && Symmetric(ws[i].g.nodes)
    requires acts[i].Dispose? && acts[i].kind != EffectKind && Names(ws[i].g, acts[i].h, acts[i].kind)
    requires QuietBetween(ws, acts, i + 1, m)
    requires acts[m] == Teardown(k) && k < |ws[m].teardowns|
    requires ws[m].teardowns[k] == Dependents(ws[i].g.nodes[acts[i].h.id])
    requires d != acts[i].h.id && d in Cone(ws[i].g.nodes, Elems(Dependents(ws[i].g.nodes[acts[i].h.id])))
    ensures IsComputed(ws[m + 1].g.nodes, d) && ws[m + 1].g.nodes[d].state == Empty
  {
    var h := acts[i].h;
    var roots := Elems(Dependents(ws[i].g.nodes[h.id]));
    DisposeSymmetric(ws[i].g, h, acts[i].kind);
    ConeSurvives(ws[i].g.nodes, ws[i + 1].g.nodes, h.id, roots);
    QuietRunGrows(ws, acts, i + 1, m);
    ConeGrows(ws[i + 1].g.nodes, ws[m].g.nodes, roots);
    TeardownEmpties(ws[m], k, d);
  }
}
