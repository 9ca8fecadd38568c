/**
 Creation, reads, completions and disposal, interleaved at lock granularity. A read may go through
 any handle, live or not, and an effect run may be captured at an id that has been vacated or
 reused since its body was fetched. Identities are never reissued.
 */
module Lifecycle {
  import opened Prelude
  import opened Graph
  import opened Edges

  /** A spawned compute or effect body; `tracked` is its dependency tracker. */
  datatype Task = Task(node: Id, gen: nat, rev: nat, effect: bool, tracked: set<Id>, done: bool)

  /** `teardowns` are the readers a disposal left behind and has not walked yet; `issued` is history. */
  datatype World = World(g: Graph, tasks: seq<Task>, teardowns: seq<seq<Id>>, issued: seq<Handle>)

  const START: World := World(EMPTY_GRAPH, [], [], [])

  datatype Action =
    | Make(node: Node)
    | SpawnSlot(slot: Id)
    | SpawnEffect(effect: Id)
    | Touch(t: nat, dep: Id)
    | FinishSlot(t: nat, order: seq<Id>, result: Value)
    | FinishEffect(t: nat, order: seq<Id>)
    | WalkFrom(roots: set<Id>)
    | Dispose(h: Handle, kind: Kind)
    | Teardown(k: nat)

  ghost predicate Enabled(w: World, a: Action) {
    match a
    case Make(n) => Dependents(n) == [] && Dependencies(n) == [] && (n.Computed? ==> n.state == Empty)
    case SpawnSlot(d) => IsComputed(w.g.nodes, d)
    case SpawnEffect(e) => e < w.g.nextId
    case Touch(t, _) => t < |w.tasks| && !w.tasks[t].done
    case FinishSlot(t, order, _) =>
      t < |w.tasks| && !w.tasks[t].done && !w.tasks[t].effect && NoDup(order) && Elems(order) == w.tasks[t].tracked
    case FinishEffect(t, order) =>
      t < |w.tasks| && !w.tasks[t].done && w.tasks[t].effect && NoDup(order) && Elems(order) == w.tasks[t].tracked
    case WalkFrom(_) => true
    case Dispose(_, _) => true
    case Teardown(k) => k < |w.teardowns|
  }

  /** A compute re-checks the revision and nothing else; an effect re-checks the generation. */
  ghost predicate Writes(w: World, t: nat)
    requires t < |w.tasks|
  {
    var task := w.tasks[t];
    if task.effect then Generation(w.g, task.node) == task.gen && IsEffect(w.g.nodes, task.node)
    else IsComputed(w.g.nodes, task.node) && w.g.nodes[task.node].revision == task.rev
  }

  /** The nodes after a completion; a compute has a `result`, an effect has none. */
  ghost function FinishNodes(w: World, t: nat, order: seq<Id>, result: Option<Value>): Nodes
    requires t < |w.tasks| && w.tasks[t].effect == result.None?
  {
    var task := w.tasks[t];
    if !Writes(w, t) then w.g.nodes
    else
      var nodes := UpdateDependencies(w.g.nodes, task.node, order);
      if result.Some? && nodes[task.node].state == Computing(task.rev)
      then nodes[task.node := nodes[task.node].(state := Resolved, cached := result)] else nodes
  }

  ghost function Next(w: World, a: Action): World
    requires Enabled(w, a)
  {
    match a
    case Make(n) =>
      var (g, id) := NewNode(w.g, n);
      w.(g := g, issued := w.issued + [Handle(id, Generation(w.g, id))])
    case SpawnSlot(d) =>
      var n := w.g.nodes[d];
      if n.state.Computing? then w
      else
        w.(g := w.g.(nodes := w.g.nodes[d := n.(state := Computing(n.revision), notifier := Some(|w.tasks|))]),
           tasks := w.tasks + [Task(d, Generation(w.g, d), n.revision, false, {}, false)])
    case SpawnEffect(e) =>
      w.(tasks := w.tasks + [Task(e, Generation(w.g, e), 0, true, {}, false)])
    case Touch(t, x) =>
      var task := w.tasks[t];
      w.(g := if Generation(w.g, task.node) == task.gen then w.g.(nodes := Register(w.g.nodes, x, task.node)) else w.g,
         tasks := w.tasks[t := task.(tracked := task.tracked + {x})])
    case FinishSlot(t, order, v) =>
      w.(g := w.g.(nodes := FinishNodes(w, t, order, Some(v))), tasks := w.tasks[t := w.tasks[t].(done := true)])
    case FinishEffect(t, order) =>
      w.(g := w.g.(nodes := FinishNodes(w, t, order, None)), tasks := w.tasks[t := w.tasks[t].(done := true)])
    case WalkFrom(roots) => w.(g := w.g.(nodes := Walk(w.g.nodes, roots)))
    case Dispose(h, kind) =>
      w.(g := AfterDispose(w.g, h, kind),
         teardowns := if kind == EffectKind then w.teardowns else w.teardowns + [DisposeNode(w.g, h, kind).1])
    case Teardown(k) =>
      w.(g := w.g.(nodes := Walk(w.g.nodes, Elems(w.teardowns[k]))),
         teardowns := w.teardowns[..k] + w.teardowns[k + 1..])
  }

  ghost predicate IsExecution(ws: seq<World>, acts: seq<Action>) {
    && |ws| == |acts| + 1
    && ws[0] == START
    && forall i :: 0 <= i < |acts| ==> Enabled(ws[i], acts[i]) && ws[i + 1] == Next(ws[i], acts[i])
  }

  // ---- identity --------------------------------------------------------------

  /** Live ids and the free list partition the ids handed out so far. */
  ghost predicate Partitioned(g: Graph) {
    && NoDup(g.freeIds)
    && (forall i: Id :: i in g.freeIds <==> i < g.nextId && i !in g.nodes)
    && (forall i :: i in g.nodes ==> i < g.nextId && i < |g.generations|)
    && |g.generations| <= g.nextId
  }

  ghost predicate HandleOk(g: Graph, h: Handle) {
    h.id < g.nextId && h.gen <= Generation(g, h.id) && (h.gen == Generation(g, h.id) ==> h.id in g.nodes)
  }

  ghost predicate IdentityInv(w: World) {
    && Partitioned(w.g)
    && NoDup(w.issued)
    && (forall h :: h in w.issued ==> HandleOk(w.g, h))
    && (forall i :: i in w.g.nodes ==> Handle(i, Generation(w.g, i)) in w.issued)
  }

  /** Only creation and disposal move ids, generations or the free list. */
  ghost predicate SameIds(g: Graph, g': Graph) {
    && g'.nodes.Keys == g.nodes.Keys && g'.generations == g.generations
    && g'.nextId == g.nextId && g'.freeIds == g.freeIds
    && forall x :: x in g.nodes ==> KindOf(g'.nodes[x]) == KindOf(g.nodes[x])
  }

  lemma UpdateKeepsIds(nodes: Nodes, owner: Id, order: seq<Id>)
    ensures UpdateDependencies(nodes, owner, order).Keys == nodes.Keys
    ensures forall x :: x in nodes ==> KindOf(UpdateDependencies(nodes, owner, order)[x]) == KindOf(nodes[x])
  {
  }

  lemma QuietKeepsIds(w: World, a: Action)
    requires Enabled(w, a) && !a.Make? && !(a.Dispose? && Names(w.g, a.h, a.kind))
    ensures SameIds(w.g, Next(w, a).g) && Next(w, a).issued == w.issued
  {
    match a
    case Touch(t, x) => RegisterFacts(w.g.nodes, x, w.tasks[t].node);
    case FinishSlot(t, order, _) => UpdateKeepsIds(w.g.nodes, w.tasks[t].node, order);
    case FinishEffect(t, order) => UpdateKeepsIds(w.g.nodes, w.tasks[t].node, order);
    case _ =>
  }

  lemma NewNodeIds(g: Graph, n: Node)
    requires Partitioned(g)
    ensures
      var (g', id) := NewNode(g, n);
      && id !in g.nodes && id < g'.nextId && g.nextId <= g'.nextId
      && g'.nodes == g.nodes[id := n]
      && (forall i: nat :: Generation(g', i) == Generation(g, i))
      && (id < g.nextId || id == g.nextId)
      && Partitioned(g')
  {
    var (g', id) := NewNode(g, n);
    if |g.freeIds| > 0 {
      assert g.freeIds == g'.freeIds + [id];
      assert id in g.freeIds;
      assert forall i: Id :: i in g'.freeIds <==> i in g.freeIds && i != id;
    }
  }

  lemma MakeKeepsIdentity(w: World, n: Node)
    requires IdentityInv(w)
    ensures
      var (g, id) := NewNode(w.g, n);
      IdentityInv(w.(g := g, issued := w.issued + [Handle(id, Generation(w.g, id))]))
  {
    NewNodeIds(w.g, n);
    var (g, id) := NewNode(w.g, n);
    var h := Handle(id, Generation(w.g, id));
    assert h in w.issued ==> HandleOk(w.g, h);
    forall k | k in w.issued + [h] ensures HandleOk(g, k) {
      assert k in w.issued ==> HandleOk(w.g, k);
    }
  }

  /** What a dispose through a live handle does to identity. */
  lemma DisposeIds(g: Graph, h: Handle, kind: Kind)
    requires Names(g, h, kind) && h.id < |g.generations|
    ensures
      var g' := AfterDispose(g, h, kind);
      && g'.nodes.Keys == g.nodes.Keys - {h.id}
      && (forall x :: x in g'.nodes ==> KindOf(g'.nodes[x]) == KindOf(g.nodes[x]))
      && g'.generations == g.generations[h.id := g.generations[h.id] + 1]
      && g'.nextId == g.nextId && g'.freeIds == g.freeIds + [h.id]
  {
    DisposeSame(g, h, kind);
  }

  lemma DisposeKeepsIdentity(w: World, h: Handle, kind: Kind)
    requires IdentityInv(w) && Names(w.g, h, kind)
    ensures IdentityInv(w.(g := AfterDispose(w.g, h, kind)))
  {
    var g' := AfterDispose(w.g, h, kind);
    DisposeIds(w.g, h, kind);
    assert forall i: nat :: Generation(g', i) == Generation(w.g, i) + if i == h.id then 1 else 0;
    assert forall i: Id :: i in g'.freeIds <==> i in w.g.freeIds || i == h.id;
  }

  lemma IdentityStep(w: World, a: Action)
    requires IdentityInv(w) && Enabled(w, a)
    ensures IdentityInv(Next(w, a))
    ensures forall i: nat :: Generation(w.g, i) <= Generation(Next(w, a).g, i)
    ensures w.issued <= Next(w, a).issued
  {
    if a.Make? {
      MakeKeepsIdentity(w, a.node);
      NewNodeIds(w.g, a.node);
    } else if a.Dispose? && Names(w.g, a.h, a.kind) {
      DisposeKeepsIdentity(w, a.h, a.kind);
      DisposeIds(w.g, a.h, a.kind);
    } else {
      QuietKeepsIds(w, a);
    }
  }

  lemma {:induction false} IdentityReachable(ws: seq<World>, acts: seq<Action>, i: nat)
    requires IsExecution(ws, acts) && i < |ws|
    ensures IdentityInv(ws[i])
    decreases i
  {
    if i > 0 {
      IdentityReachable(ws, acts, i - 1);
      IdentityStep(ws[i - 1], acts[i - 1]);
    }
  }

  /** No (id, generation) pair is handed out twice, and live and free ids partition `0..next_id`. */
  lemma NeverReissued(ws: seq<World>, acts: seq<Action>, i: nat)
    requires IsExecution(ws, acts) && i < |ws|
    ensures Partitioned(ws[i].g) && NoDup(ws[i].issued)
  {
    IdentityReachable(ws, acts, i);
  }

  lemma {:induction false} GenerationsGrow(ws: seq<World>, acts: seq<Action>, i: nat, j: nat, id: Id)
    requires IsExecution(ws, acts) && i <= j < |ws|
    ensures Generation(ws[i].g, id) <= Generation(ws[j].g, id)
    decreases j - i
  {
    if i < j {
      IdentityReachable(ws, acts, j - 1);
      IdentityStep(ws[j - 1], acts[j - 1]);
      GenerationsGrow(ws, acts, i, j - 1, id);
    }
  }

  /** Once a handle has been disposed, disposing through it again never changes anything. */
  lemma RetiredHandleIsInert(ws: seq<World>, acts: seq<Action>, i: nat, j: nat, kind: Kind)
    requires IsExecution(ws, acts) && i < |acts| && i < j < |ws|
    requires acts[i].Dispose? && Names(ws[i].g, acts[i].h, acts[i].kind)
    ensures !Names(ws[j].g, acts[i].h, kind) && AfterDispose(ws[j].g, acts[i].h, kind) == ws[j].g
    ensures acts[i].h.id in ws[j].g.nodes ==> Handle(acts[i].h.id, Generation(ws[j].g, acts[i].h.id)) != acts[i].h
  {
    IdentityReachable(ws, acts, i);
    DisposeIds(ws[i].g, acts[i].h, acts[i].kind);
    GenerationsGrow(ws, acts, i + 1, j, acts[i].h.id);
  }

  /**
   After a node has been disposed, no later read or effect completion of a run of that incarnation
   changes the graph: no edge is registered and none is rewired, whoever has the id by then.
   */
  lemma LateRunRewiresNothing(ws: seq<World>, acts: seq<Action>, i: nat, j: nat, t: nat)
    requires IsExecution(ws, acts) && i < j < |acts|
    requires acts[i].Dispose? && Names(ws[i].g, acts[i].h, acts[i].kind)
    requires t < |ws[j].tasks| && Handle(ws[j].tasks[t].node, ws[j].tasks[t].gen) == acts[i].h
    requires (acts[j].Touch? || acts[j].FinishEffect?) && acts[j].t == t
    ensures ws[j + 1].g == ws[j].g
  {
    IdentityReachable(ws, acts, i);
    DisposeIds(ws[i].g, acts[i].h, acts[i].kind);
    GenerationsGrow(ws, acts, i + 1, j, acts[i].h.id);
    assert Generation(ws[j].g, acts[i].h.id) != acts[i].h.gen;
    assert Enabled(ws[j], acts[j]) && ws[j + 1] == Next(ws[j], acts[j]);
  }
}
