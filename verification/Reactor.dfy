/**
 Interleavings of the async context: every action is one lock section (or one
 lock-free hand-over between two of them), so a run of actions is one schedule of
 any number of writers, batches, readers and spawned computes.
 */
module Reactor {
  import opened Prelude
  import opened Graph

  /** `Dropped`: the run found itself superseded and published nothing. */
  datatype Phase = Running | Published(result: Value) | Dropped

  /** A spawned compute. `subscribed` is the completion channel it waits on, named by run. */
  datatype Run = Run(node: Id, rev: nat, seen: seq<Entry>, subscribed: Option<nat>, phase: Phase)

  /** The tail of an outermost `batch`: cells still to visit, dependents gathered so far. */
  datatype Drain = Drain(cells: set<Id>, roots: seq<Id>)

  /** History: the first publication of a slot at a revision. No action reads it. */
  datatype Pub = Pub(rev: nat, trace: seq<Entry>, value: Value, stamp: nat)

  /** `walks` are root lists captured under the lock and not yet walked. */
  datatype World = World(
    g: Graph,
    runs: seq<Run>,
    walks: seq<seq<Id>>,
    drains: seq<Drain>,
    pub: map<Id, Pub>,
    clock: nat)

  const START: World := World(EMPTY_GRAPH, [], [], [], map[], 0)

  datatype Action =
    | MakeSource(init: Value)
    | MakeComputed(compute: Compute)
    | MakeEffect(body: nat)
    | EffectReads(effect: Id, dep: Id)
    | EffectFinishes(effect: Id, tracked: seq<Id>)
    | Set(cell: Id, value: Value)
    | BatchEnter
    | BatchExit
    | DrainCell(k: nat, cell: Id)
    | DrainDone(k: nat)
    | Clear(roots: seq<Id>)
    | WalkRoots(k: nat)
    | Spawn(slot: Id)
    | ObserveSource(r: nat)
    | DeclareDep(r: nat)
    | TakeResolved(r: nat)
    | Subscribe(r: nat)
    | Unsubscribe(r: nat)
    | Deliver(r: nat)
    | Complete(r: nat, tracked: seq<Id>)

  /** The ids a run's dependency tracker holds. */
  function Tracked(seen: seq<Entry>): set<Id> {
    set k | 0 <= k < |seen| && !seen[k].Awaited? :: if seen[k].SourceRead? then seen[k].src else seen[k].dep
  }

  function DropAt<T>(s: seq<T>, k: nat): seq<T>
    requires k < |s|
  {
    s[..k] + s[k + 1..]
  }

  /** What run `r` does next. */
  ghost function NextOp(w: World, r: nat): Op
    requires r < |w.runs| && IsComputed(w.g.nodes, w.runs[r].node)
  {
    w.g.nodes[w.runs[r].node].compute(w.runs[r].seen)
  }

  ghost predicate IsRunning(w: World, r: nat) {
    r < |w.runs| && w.runs[r].phase.Running? && IsComputed(w.g.nodes, w.runs[r].node)
  }

  ghost predicate Enabled(w: World, a: Action) {
    match a
    case MakeSource(_) => true
    case MakeComputed(_) => true
    case MakeEffect(_) => true
    case EffectReads(e, x) => IsEffect(w.g.nodes, e) && x in w.g.nodes
    case EffectFinishes(e, tracked) => IsEffect(w.g.nodes, e)
    case Set(s, _) => IsSource(w.g.nodes, s)
    case BatchEnter => true
    case BatchExit => w.g.batchDepth > 0
    case DrainCell(k, s) => k < |w.drains| && s in w.drains[k].cells
    case DrainDone(k) => k < |w.drains| && w.drains[k].cells == {}
    case Clear(_) => true
    case WalkRoots(k) => k < |w.walks|
    case Spawn(d) => IsComputed(w.g.nodes, d)
    case ObserveSource(r) =>
      IsRunning(w, r) && NextOp(w, r).ReadSource? && IsSource(w.g.nodes, NextOp(w, r).src)
    case DeclareDep(r) =>
      IsRunning(w, r) && NextOp(w, r).Declare? && IsComputed(w.g.nodes, NextOp(w, r).dep)
    case TakeResolved(r) =>
      IsRunning(w, r) && AwaitsDeclared(w, r) && w.g.nodes[NextOp(w, r).slot].state.Resolved?
      && w.g.nodes[NextOp(w, r).slot].cached.Some?
    case Subscribe(r) =>
      IsRunning(w, r) && AwaitsDeclared(w, r) && w.g.nodes[NextOp(w, r).slot].state.Computing?
      && w.g.nodes[NextOp(w, r).slot].notifier.Some?
    case Unsubscribe(r) => IsRunning(w, r)
    case Deliver(r) =>
      IsRunning(w, r) && AwaitsDeclared(w, r) && w.runs[r].subscribed.Some?
      && w.runs[r].subscribed.value < |w.runs| && w.runs[w.runs[r].subscribed.value].phase.Published?
    case Complete(r, tracked) =>
      IsRunning(w, r) && NextOp(w, r).Return? && NoDup(tracked) && Elems(tracked) == Tracked(w.runs[r].seen)
  }

  /** The future being awaited was created by an earlier declaration of the same run. */
  ghost predicate AwaitsDeclared(w: World, r: nat)
    requires IsRunning(w, r)
  {
    NextOp(w, r).Await? && IsComputed(w.g.nodes, NextOp(w, r).slot) && Declared(NextOp(w, r).slot) in w.runs[r].seen
  }

  function SetCell(w: World, s: Id, v: Value): World
    requires IsSource(w.g.nodes, s)
  {
    var (g, due) := WriteCell(w.g, s, v);
    w.(g := g, walks := if due.Some? then w.walks + [due.value] else w.walks)
  }

  function LeaveBatch(w: World): World
    requires w.g.batchDepth > 0
  {
    var (g, cells) := ExitBatch(w.g);
    w.(g := g, drains := if cells.Some? then w.drains + [Drain(cells.value, [])] else w.drains)
  }

  function DrainOne(w: World, k: nat, s: Id): World
    requires k < |w.drains|
  {
    var d := w.drains[k];
    var more := if IsSource(w.g.nodes, s) then w.g.nodes[s].dependents else [];
    w.(drains := w.drains[k := Drain(d.cells - {s}, d.roots + more)])
  }

  function FinishDrain(w: World, k: nat): World
    requires k < |w.drains|
  {
    var w1 := w.(drains := DropAt(w.drains, k));
    if w.drains[k].roots == [] then w1 else w1.(walks := w.walks + [w.drains[k].roots])
  }

  ghost function WalkOne(w: World, k: nat): World
    requires k < |w.walks|
  {
    w.(g := w.g.(nodes := Walk(w.g.nodes, Elems(w.walks[k]))), walks := DropAt(w.walks, k))
  }

  /** `spawn_async_compute`: only an in-flight slot is left alone; a resolved one is run again. */
  function SpawnRun(w: World, d: Id): World
    requires IsComputed(w.g.nodes, d)
  {
    var n := w.g.nodes[d];
    if n.state.Computing? then w
    else
      w.(g := w.g.(nodes := w.g.nodes[d := n.(state := Computing(n.revision), notifier := Some(|w.runs|))]),
         runs := w.runs + [Run(d, n.revision, [], None, Running)])
  }

  function Observe(w: World, r: nat, e: Entry): World
    requires r < |w.runs|
  {
    w.(runs := w.runs[r := w.runs[r].(seen := w.runs[r].seen + [e], subscribed := None)])
  }

  function RegisterEdge(w: World, dep: Id, dependent: Id): World {
    w.(g := w.g.(nodes := Register(w.g.nodes, dep, dependent)))
  }

  /** The locked tail of a spawned compute that returned `v`. */
  function FinishRun(w: World, r: nat, v: Value, tracked: seq<Id>): World
    requires r < |w.runs| && IsComputed(w.g.nodes, w.runs[r].node)
  {
    var run := w.runs[r];
    var d := run.node;
    if w.g.nodes[d].revision != run.rev then
      w.(runs := w.runs[r := run.(phase := Dropped)])
    else
      var nodes := UpdateDependencies(w.g.nodes, d, tracked);
      var n := nodes[d];
      var published :=
        if n.state == Computing(run.rev) then nodes[d := n.(state := Resolved, cached := Some(v))] else nodes;
      var first := !(d in w.pub && w.pub[d].rev == run.rev);
      w.(g := w.g.(nodes := published),
         runs := w.runs[r := run.(phase := Published(v))],
         pub := if first then w.pub[d := Pub(run.rev, run.seen, v, w.clock)] else w.pub,
         clock := if first then w.clock + 1 else w.clock)
  }

  ghost function Next(w: World, a: Action): World
    requires Enabled(w, a)
  {
    match a
    case MakeSource(v) => w.(g := NewNode(w.g, FreshSource(v)).0)
    case MakeComputed(c) => w.(g := NewNode(w.g, FreshComputed(c)).0)
    case MakeEffect(b) => w.(g := NewNode(w.g, FreshEffect(b)).0)
    case EffectReads(e, x) => RegisterEdge(w, x, e)
    case EffectFinishes(e, tracked) => w.(g := w.g.(nodes := UpdateDependencies(w.g.nodes, e, tracked)))
    case Set(s, v) => SetCell(w, s, v)
    case BatchEnter => w.(g := EnterBatch(w.g))
    case BatchExit => LeaveBatch(w)
    case DrainCell(k, s) => DrainOne(w, k, s)
    case DrainDone(k) => FinishDrain(w, k)
    case Clear(roots) => w.(walks := w.walks + [roots])
    case WalkRoots(k) => WalkOne(w, k)
    case Spawn(d) => SpawnRun(w, d)
    case ObserveSource(r) =>
      var s := NextOp(w, r).src;
      Observe(RegisterEdge(w, s, w.runs[r].node), r, SourceRead(s, w.g.nodes[s].value))
    case DeclareDep(r) =>
      var x := NextOp(w, r).dep;
      Observe(RegisterEdge(w, x, w.runs[r].node), r, Declared(x))
    case TakeResolved(r) =>
      var e := NextOp(w, r).slot;
      Observe(w, r, Awaited(e, w.g.nodes[e].cached.value))
    case Subscribe(r) =>
      w.(runs := w.runs[r := w.runs[r].(subscribed := w.g.nodes[NextOp(w, r).slot].notifier)])
    case Unsubscribe(r) => w.(runs := w.runs[r := w.runs[r].(subscribed := None)])
    case Deliver(r) =>
      Observe(w, r, Awaited(NextOp(w, r).slot, w.runs[w.runs[r].subscribed.value].phase.result))
    case Complete(r, tracked) => FinishRun(w, r, NextOp(w, r).result, tracked)
  }

  /** `ws` are the worlds that `acts` lead through. */
  ghost predicate IsExecution(ws: seq<World>, acts: seq<Action>) {
    && |ws| == |acts| + 1
    && ws[0] == START
    && forall i :: 0 <= i < |acts| ==> Enabled(ws[i], acts[i]) && ws[i + 1] == Next(ws[i], acts[i])
  }

  // ---- the reference: evaluation from scratch --------------------------------

  /**
   The value `d` has when recomputed over the current sources, ignoring every cache. It reads
   sources, declares slots, and awaits only futures it has declared.
   */
  ghost function EvalNode(nodes: Nodes, d: Id, fuel: nat): Option<Value>
    decreases fuel
  {
    if fuel == 0 || !IsComputed(nodes, d) then None
    else EvalFrom(nodes, nodes[d].compute, [], fuel - 1)
  }

  ghost function EvalFrom(nodes: Nodes, compute: Compute, seen: seq<Entry>, fuel: nat): Option<Value>
    decreases fuel
  {
    if fuel == 0 then None
    else
      match compute(seen)
      case Return(v) => Some(v)
      case ReadSource(s) =>
        if IsSource(nodes, s) then EvalFrom(nodes, compute, seen + [SourceRead(s, nodes[s].value)], fuel - 1) else None
      case Declare(x) => if IsComputed(nodes, x) then EvalFrom(nodes, compute, seen + [Declared(x)], fuel - 1) else None
      case Await(e) =>
        var r := if Declared(e) in seen then EvalNode(nodes, e, fuel - 1) else None;
        if r.None? then None else EvalFrom(nodes, compute, seen + [Awaited(e, r.value)], fuel - 1)
  }

  ghost predicate FromScratch(nodes: Nodes, d: Id, v: Value) {
    exists fuel: nat :: EvalNode(nodes, d, fuel) == Some(v)
  }

  lemma {:induction false} EvalFromMonotone(nodes: Nodes, compute: Compute, seen: seq<Entry>, f: nat, f': nat)
    requires f <= f' && EvalFrom(nodes, compute, seen, f).Some?
    ensures EvalFrom(nodes, compute, seen, f') == EvalFrom(nodes, compute, seen, f)
    decreases f
  {
    match compute(seen)
    case Return(_) =>
    case ReadSource(s) => EvalFromMonotone(nodes, compute, seen + [SourceRead(s, nodes[s].value)], f - 1, f' - 1);
    case Declare(x) => EvalFromMonotone(nodes, compute, seen + [Declared(x)], f - 1, f' - 1);
    case Await(e) =>
      EvalNodeMonotone(nodes, e, f - 1, f' - 1);
      EvalFromMonotone(nodes, compute, seen + [Awaited(e, EvalNode(nodes, e, f - 1).value)], f - 1, f' - 1);
  }

  lemma {:induction false} EvalNodeMonotone(nodes: Nodes, d: Id, f: nat, f': nat)
    requires f <= f' && EvalNode(nodes, d, f).Some?
    ensures EvalNode(nodes, d, f') == EvalNode(nodes, d, f)
    decreases f
  {
    EvalFromMonotone(nodes, nodes[d].compute, [], f - 1, f' - 1);
  }

  /** Evaluation from scratch is a partial function: more fuel never changes the answer. */
  lemma FromScratchUnique(nodes: Nodes, d: Id, v: Value, v': Value)
    requires FromScratch(nodes, d, v) && FromScratch(nodes, d, v')
    ensures v == v'
  {
    var f: nat :| EvalNode(nodes, d, f) == Some(v);
    var f': nat :| EvalNode(nodes, d, f') == Some(v');
    EvalNodeMonotone(nodes, d, f, f + f');
    EvalNodeMonotone(nodes, d, f', f + f');
  }
}
