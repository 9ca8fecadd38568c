/**
 The async reactive graph: an arena of source, computed and effect nodes with forward
 and reverse edges, revisions, generations, a free list, batching and an effect queue.

 Every section that the implementation runs under `inner.lock()` is one function here.
 */
module Graph {
  import opened Prelude

  type Id = nat

  /** Cached values are type-erased in the implementation; only equality is used. */
  type Value(==, !new)

  /** What a compute does next, given everything it has observed so far. */
  datatype Op =
    | ReadSource(src: Id)
    | Declare(dep: Id)
    | Await(slot: Id)
    | Return(result: Value)

  /** One observation of a run. */
  datatype Entry =
    | SourceRead(src: Id, value: Value)
    | Declared(dep: Id)
    | Awaited(slot: Id, value: Value)

  /** A compute is deterministic in what it observes. */
  type Compute = seq<Entry> -> Op

  datatype SlotState = Empty | Computing(rev: nat) | Resolved

  /** `notifier` names the run whose completion channel the slot currently publishes. */
  datatype Node =
    | Source(value: Value, dependents: seq<Id>)
    | Computed(state: SlotState, cached: Option<Value>, revision: nat, compute: Compute,
               dependencies: seq<Id>, dependents: seq<Id>, notifier: Option<nat>)
    | Effect(body: nat, cleanup: Option<nat>, dependencies: seq<Id>, forceRun: bool)

  type Nodes = map<Id, Node>

  datatype Graph = Graph(
    nodes: Nodes,
    generations: seq<nat>,
    nextId: nat,
    freeIds: seq<Id>,
    batchDepth: nat,
    batchedCells: set<Id>,
    pending: seq<Id>,
    scheduled: set<Id>)

  const EMPTY_GRAPH: Graph := Graph(map[], [], 0, [], 0, {}, [], {})

  predicate IsSource(nodes: Nodes, id: Id) {
    id in nodes && nodes[id].Source?
  }

  predicate IsComputed(nodes: Nodes, id: Id) {
    id in nodes && nodes[id].Computed?
  }

  predicate IsEffect(nodes: Nodes, id: Id) {
    id in nodes && nodes[id].Effect?
  }

  /** Effects are pure sinks: nothing can read one. */
  function Dependents(n: Node): seq<Id> {
    if n.Effect? then [] else n.dependents
  }

  /** Sources are pure: they read nothing. */
  function Dependencies(n: Node): seq<Id> {
    if n.Source? then [] else n.dependencies
  }

  /** Reverse edge: `dependent` is listed by `dep`. */
  predicate Edge(nodes: Nodes, dep: Id, dependent: Id) {
    dep in nodes && dependent in Dependents(nodes[dep])
  }

  function AddDependent(n: Node, id: Id): Node {
    if n.Effect? then n else n.(dependents := EdgeInsert(n.dependents, id))
  }

  function RemoveDependent(n: Node, id: Id): Node {
    if n.Effect? then n else n.(dependents := EdgeRemove(n.dependents, id))
  }

  function AddDependency(n: Node, id: Id): Node {
    if n.Source? then n else n.(dependencies := EdgeInsert(n.dependencies, id))
  }

  function RemoveDependency(n: Node, id: Id): Node {
    if n.Source? then n else n.(dependencies := EdgeRemove(n.dependencies, id))
  }

  // ---- allocation ----------------------------------------------------------

  function Generation(g: Graph, id: Id): nat {
    if id < |g.generations| then g.generations[id] else 0
  }

  function AllocId(g: Graph): (Graph, Id) {
    if |g.freeIds| > 0 then
      (g.(freeIds := g.freeIds[..|g.freeIds| - 1]), g.freeIds[|g.freeIds| - 1])
    else
      (g.(nextId := g.nextId + 1), g.nextId)
  }

  function InsertNode(g: Graph, id: Id, n: Node): Graph {
    g.(nodes := g.nodes[id := n],
       generations := if |g.generations| <= id
                      then g.generations + seq(id + 1 - |g.generations|, _ => 0)
                      else g.generations)
  }

  function NewNode(g: Graph, n: Node): (Graph, Id) {
    var (g1, id) := AllocId(g);
    (InsertNode(g1, id, n), id)
  }

  function FreshSource(v: Value): Node {
    Source(v, [])
  }

  function FreshComputed(compute: Compute): Node {
    Computed(Empty, None, 0, compute, [], [], None)
  }

  function FreshEffect(body: nat): Node {
    Effect(body, None, [], true)
  }

  // ---- edges ---------------------------------------------------------------

  /** `register_dependency_locked` */
  function Register(nodes: Nodes, dep: Id, dependent: Id): Nodes {
    if dep == dependent then nodes
    else
      var forward := if dependent in nodes then nodes[dependent := AddDependency(nodes[dependent], dep)] else nodes;
      if dep in forward then forward[dep := AddDependent(forward[dep], dependent)] else forward
  }

  /** Two versions of one node that differ in edges only. */
  ghost predicate SameButEdges(n: Node, n': Node) {
    match n
    case Source(v, _) => n'.Source? && n'.value == v
    case Computed(st, c, r, f, _, _, ch) =>
      n'.Computed? && n'.state == st && n'.cached == c && n'.revision == r && n'.compute == f && n'.notifier == ch
    case Effect(b, c, _, fr) => n'.Effect? && n'.body == b && n'.cleanup == c && n'.forceRun == fr
  }

  lemma RegisterFacts(nodes: Nodes, dep: Id, dependent: Id)
    ensures Register(nodes, dep, dependent).Keys == nodes.Keys
    ensures forall x :: x in nodes ==> SameButEdges(nodes[x], Register(nodes, dep, dependent)[x])
    ensures forall x, d :: Edge(Register(nodes, dep, dependent), x, d) <==>
                           || Edge(nodes, x, d)
                           || (x == dep && d == dependent && x != d && x in nodes && !nodes[x].Effect?)
  {
  }

  /** The node at `x` once the owner of the forward edges `before` reads exactly `after`. */
  function Rewire(n: Node, x: Id, owner: Id, before: set<Id>, after: seq<Id>): Node {
    var n1 := if x in before && x !in after then RemoveDependent(n, owner) else n;
    var n2 := if x == owner && !n1.Source? then n1.(dependencies := after) else n1;
    if x in after then AddDependent(n2, owner) else n2
  }

  /** `update_dependencies` and `update_effect_dependencies`; `tracked` enumerates the tracked set. */
  function UpdateDependencies(nodes: Nodes, owner: Id, tracked: seq<Id>): Nodes {
    if owner in nodes && !nodes[owner].Source? then
      var before := Elems(nodes[owner].dependencies);
      map x | x in nodes :: Rewire(nodes[x], x, owner, before, tracked)
    else nodes
  }

  // ---- reachability and the frontier walk ----------------------------------

  /** `d` is a slot at the end of a chain of `n` reverse edges between slots, starting in `roots`. */
  ghost predicate ReachesIn(nodes: Nodes, roots: set<Id>, d: Id, n: nat)
    decreases n
  {
    && IsComputed(nodes, d)
    && if n == 0 then d in roots else exists c :: ReachesIn(nodes, roots, c, n - 1) && Edge(nodes, c, d)
  }

  ghost predicate Reaches(nodes: Nodes, roots: set<Id>, d: Id) {
    exists n: nat :: ReachesIn(nodes, roots, d, n)
  }

  /** The computed nodes a change at `roots` can influence. */
  ghost function Cone(nodes: Nodes, roots: set<Id>): set<Id> {
    set d | d in nodes && Reaches(nodes, roots, d)
  }

  /** The effects among the roots or adjacent to the cone. */
  ghost function AffectedEffects(nodes: Nodes, roots: set<Id>): set<Id> {
    set e | e in nodes && nodes[e].Effect? && (e in roots || exists c :: c in Cone(nodes, roots) && Edge(nodes, c, e))
  }

  /** `AsyncComputedNode::invalidate` plus dropping the notifier. */
  function Invalidate(n: Node): Node {
    if n.Computed? then n.(revision := n.revision + 1, state := Empty, notifier := None) else n
  }

  function InvalidateSet(nodes: Nodes, hit: set<Id>): Nodes {
    map x | x in nodes :: if x in hit then Invalidate(nodes[x]) else nodes[x]
  }

  /** The locked part of `invalidate_frontier_async`. */
  ghost function Walk(nodes: Nodes, roots: set<Id>): Nodes {
    InvalidateSet(nodes, Cone(nodes, roots))
  }

  lemma ConeRoot(nodes: Nodes, roots: set<Id>, d: Id)
    requires d in roots && IsComputed(nodes, d)
    ensures d in Cone(nodes, roots)
  {
    assert ReachesIn(nodes, roots, d, 0);
  }

  lemma ConeStep(nodes: Nodes, roots: set<Id>, c: Id, d: Id)
    requires c in Cone(nodes, roots) && Edge(nodes, c, d) && IsComputed(nodes, d)
    ensures d in Cone(nodes, roots)
  {
    var n: nat :| ReachesIn(nodes, roots, c, n);
    assert ReachesIn(nodes, roots, d, n + 1);
  }

  /** A set of ids that contains the computed roots and is closed under computed dependents. */
  ghost predicate ClosedOver(nodes: Nodes, roots: set<Id>, s: set<Id>) {
    && (forall d :: d in roots && IsComputed(nodes, d) ==> d in s)
    && (forall c, d :: c in s && IsComputed(nodes, c) && Edge(nodes, c, d) && IsComputed(nodes, d) ==> d in s)
  }

  lemma {:induction false} ChainInside(nodes: Nodes, roots: set<Id>, s: set<Id>, d: Id, n: nat)
    requires ClosedOver(nodes, roots, s) && ReachesIn(nodes, roots, d, n)
    ensures d in s
    decreases n
  {
    if n > 0 {
      var c :| ReachesIn(nodes, roots, c, n - 1) && Edge(nodes, c, d);
      ChainInside(nodes, roots, s, c, n - 1);
    }
  }

  /** The cone is the least closed set over its roots. */
  lemma ConeIsLeast(nodes: Nodes, roots: set<Id>, s: set<Id>)
    requires ClosedOver(nodes, roots, s)
    ensures Cone(nodes, roots) <= s
  {
    forall d | d in Cone(nodes, roots) ensures d in s {
      var n: nat :| ReachesIn(nodes, roots, d, n);
      ChainInside(nodes, roots, s, d, n);
    }
  }

  lemma ConeIsClosed(nodes: Nodes, roots: set<Id>)
    ensures ClosedOver(nodes, roots, Cone(nodes, roots))
    ensures forall d :: d in Cone(nodes, roots) ==> IsComputed(nodes, d)
  {
    forall d | d in roots && IsComputed(nodes, d) ensures d in Cone(nodes, roots) {
      ConeRoot(nodes, roots, d);
    }
    forall c, d | c in Cone(nodes, roots) && IsComputed(nodes, c) && Edge(nodes, c, d) && IsComputed(nodes, d)
      ensures d in Cone(nodes, roots)
    {
      ConeStep(nodes, roots, c, d);
    }
  }

  /** What one walk does to one node: exactly the reachable slots are emptied and bumped once. */
  lemma WalkIsExact(nodes: Nodes, roots: set<Id>, x: Id)
    requires x in nodes
    ensures x in Walk(nodes, roots)
    ensures Reaches(nodes, roots, x) ==>
              && nodes[x].Computed? && Walk(nodes, roots)[x].Computed?
              && Walk(nodes, roots)[x].state == Empty
              && Walk(nodes, roots)[x].revision == nodes[x].revision + 1
              && Walk(nodes, roots)[x].cached == nodes[x].cached
    ensures !Reaches(nodes, roots, x) ==> Walk(nodes, roots)[x] == nodes[x]
    ensures Dependents(Walk(nodes, roots)[x]) == Dependents(nodes[x])
    ensures Dependencies(Walk(nodes, roots)[x]) == Dependencies(nodes[x])
  {
  }

  /** Same nodes, kinds and reverse edges. */
  ghost predicate SameShape(nodes: Nodes, nodes': Nodes) {
    && nodes.Keys == nodes'.Keys
    && forall x :: x in nodes ==> KindOf(nodes'[x]) == KindOf(nodes[x]) && Dependents(nodes'[x]) == Dependents(nodes[x])
  }

  lemma ConeSubset(nodes: Nodes, nodes': Nodes, roots: set<Id>)
    requires SameShape(nodes, nodes')
    ensures Cone(nodes, roots) <= Cone(nodes', roots)
  {
    ConeIsClosed(nodes', roots);
    assert forall x :: IsComputed(nodes, x) ==> IsComputed(nodes', x) by {
      forall x | IsComputed(nodes, x) ensures IsComputed(nodes', x) {
        assert KindOf(nodes'[x]) == KindOf(nodes[x]);
      }
    }
    ConeIsLeast(nodes, roots, Cone(nodes', roots));
  }

  lemma ConeSame(nodes: Nodes, nodes': Nodes, roots: set<Id>)
    requires SameShape(nodes, nodes')
    ensures Cone(nodes, roots) == Cone(nodes', roots)
  {
    ConeSubset(nodes, nodes', roots);
    ConeSubset(nodes', nodes, roots);
  }

  lemma ConeUnion(nodes: Nodes, a: set<Id>, b: set<Id>)
    ensures Cone(nodes, a + b) == Cone(nodes, a) + Cone(nodes, b)
  {
    ConeIsClosed(nodes, a);
    ConeIsClosed(nodes, b);
    ConeIsClosed(nodes, a + b);
    ConeIsLeast(nodes, a + b, Cone(nodes, a) + Cone(nodes, b));
    ConeIsLeast(nodes, a, Cone(nodes, a + b));
    ConeIsLeast(nodes, b, Cone(nodes, a + b));
  }

  // ---- writes and batches --------------------------------------------------

  /** `write_source` up to the release of the lock: the readers to invalidate, if any are due now. */
  function WriteCell(g: Graph, s: Id, v: Value): (Graph, Option<seq<Id>>)
    requires IsSource(g.nodes, s)
  {
    var n := g.nodes[s];
    if n.value == v then (g, None)
    else
      var g1 := g.(nodes := g.nodes[s := n.(value := v)]);
      if g.batchDepth > 0 then (g1.(batchedCells := g.batchedCells + {s}), None)
      else (g1, Some(n.dependents))
  }

  function EnterBatch(g: Graph): Graph {
    g.(batchDepth := g.batchDepth + 1)
  }

  /** Leaving the outermost batch hands over the cells whose readers are now due. */
  function ExitBatch(g: Graph): (Graph, Option<set<Id>>)
    requires g.batchDepth > 0
  {
    if g.batchDepth > 1 then (g.(batchDepth := g.batchDepth - 1), None)
    else (g.(batchDepth := 0, batchedCells := {}), Some(g.batchedCells))
  }

  // ---- the effect queue ----------------------------------------------------

  /** The pending list and the scheduled set describe the same effects, each once. */
  ghost predicate QueueOk(g: Graph) {
    NoDup(g.pending) && Elems(g.pending) == g.scheduled
  }

  /** `schedule_async_effect` */
  function Schedule(g: Graph, id: Id): Graph {
    var g1 := if IsEffect(g.nodes, id) then g.(nodes := g.nodes[id := g.nodes[id].(forceRun := true)]) else g;
    if id in g1.scheduled then g1 else g1.(scheduled := g1.scheduled + {id}, pending := g1.pending + [id])
  }

  function ScheduleAll(g: Graph, ids: seq<Id>): Graph
    decreases |ids|
  {
    if ids == [] then g else ScheduleAll(Schedule(g, ids[0]), ids[1..])
  }

  /** The opening section of `flush_async_effects`. */
  function TakePending(g: Graph): (Graph, seq<Id>) {
    (g.(pending := [], scheduled := {}), g.pending)
  }

  function Without(s: seq<Id>, id: Id): seq<Id> {
    if s == [] then [] else (if s[0] == id then [] else [s[0]]) + Without(s[1..], id)
  }

  // ---- disposal ------------------------------------------------------------

  /** A typed handle: an id together with the generation it was issued at. */
  datatype Handle = Handle(id: Id, gen: nat)

  function DropReverse(nodes: Nodes, deps: seq<Id>, id: Id): Nodes {
    if deps == [] then nodes
    else
      var x := deps[0];
      DropReverse(if x in nodes then nodes[x := RemoveDependent(nodes[x], id)] else nodes, deps[1..], id)
  }

  function DropForward(nodes: Nodes, dependents: seq<Id>, id: Id): Nodes {
    if dependents == [] then nodes
    else
      var x := dependents[0];
      DropForward(if x in nodes then nodes[x := RemoveDependency(nodes[x], id)] else nodes, dependents[1..], id)
  }

  /** Removing edges changes no node but for its edges. */
  lemma {:induction false} DropSame(nodes: Nodes, ids: seq<Id>, id: Id)
    ensures DropReverse(nodes, ids, id).Keys == nodes.Keys && DropForward(nodes, ids, id).Keys == nodes.Keys
    ensures forall x :: x in nodes ==> SameButEdges(nodes[x], DropReverse(nodes, ids, id)[x])
    ensures forall x :: x in nodes ==> SameButEdges(nodes[x], DropForward(nodes, ids, id)[x])
    decreases |ids|
  {
    if ids != [] {
      var y := ids[0];
      DropSame(if y in nodes then nodes[y := RemoveDependent(nodes[y], id)] else nodes, ids[1..], id);
      DropSame(if y in nodes then nodes[y := RemoveDependency(nodes[y], id)] else nodes, ids[1..], id);
    }
  }

  /** `detach_edges_locked`, after the node itself has been taken out. */
  function Detach(nodes: Nodes, id: Id, n: Node): Nodes {
    DropForward(DropReverse(nodes - {id}, Dependencies(n), id), Dependents(n), id)
  }

  /** `retire_id_locked`: the generation is bumped before the id can be reissued. */
  function Retire(g: Graph, id: Id): Graph {
    g.(nodes := g.nodes - {id},
       generations := if id < |g.generations| then g.generations[id := g.generations[id] + 1] else g.generations,
       freeIds := g.freeIds + [id])
  }

  datatype Kind = SourceKind | ComputedKind | EffectKind

  function KindOf(n: Node): Kind {
    match n
    case Source(_, _) => SourceKind
    case Computed(_, _, _, _, _, _, _) => ComputedKind
    case Effect(_, _, _, _) => EffectKind
  }

  /** Whether a typed handle still names the node it was issued for. */
  predicate Names(g: Graph, h: Handle, kind: Kind) {
    Generation(g, h.id) == h.gen && h.id in g.nodes && KindOf(g.nodes[h.id]) == kind
  }

  /** The locked part of `dispose_slot` and `dispose_cell`: the new graph and the readers left behind. */
  function DisposeNode(g: Graph, h: Handle, kind: Kind): (Graph, seq<Id>) {
    if Names(g, h, kind) then
      var n := g.nodes[h.id];
      (Retire(g.(nodes := Detach(g.nodes, h.id, n)), h.id), Dependents(n))
    else (g, [])
  }

  /** The locked part of `dispose_async_effect`: the new graph and the cleanup to run. */
  function DisposeEffect(g: Graph, h: Handle): (Graph, Option<nat>) {
    if Names(g, h, EffectKind) then
      var n := g.nodes[h.id];
      var g1 := g.(pending := Without(g.pending, h.id), scheduled := g.scheduled - {h.id},
                   nodes := DropReverse(g.nodes, n.dependencies, h.id));
      (Retire(g1, h.id), n.cleanup)
    else (g, None)
  }
}
