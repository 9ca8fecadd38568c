/**
 Edge symmetry over whole executions: exactly when it holds, the disciplines that are enough, and
 what the edges are left with by a disposal whose two lock sections lie apart.
 */
module Symmetry {
  import opened Prelude
  import opened Graph
  import opened Edges
  import opened Lifecycle

  // ---- every execution: exactly when the edges stay symmetric ---------------------

  /**
   A read whose run still owns its id has both ends of the edge there, or neither; a completion
   that writes has tracked only nodes that are still readable.
   */
  ghost predicate Clean(w: World, a: Action) {
    match a
    case Touch(t, x) =>
      t < |w.tasks| && Generation(w.g, w.tasks[t].node) == w.tasks[t].gen && x != w.tasks[t].node ==>
        (Reader(w.g.nodes, w.tasks[t].node) <==> Readable(w.g.nodes, x))
    case FinishSlot(t, _, _) => CleanFinish(w, t)
    case FinishEffect(t, _) => CleanFinish(w, t)
    case _ => true
  }

  ghost predicate CleanFinish(w: World, t: nat) {
    t < |w.tasks| && Writes(w, t) ==> forall x :: x in w.tasks[t].tracked ==> Readable(w.g.nodes, x)
  }

  lemma MakeSymmetric(w: World, n: Node)
    requires IdentityInv(w) && Symmetric(w.g.nodes) && Enabled(w, Make(n))
    ensures Symmetric(Next(w, Make(n)).g.nodes)
  {
    var nodes' := Next(w, Make(n)).g.nodes;
    NewNodeIds(w.g, n);
    var id := NewNode(w.g, n).1;
    forall x, d ensures Mutual(nodes', x, d) {
      assert Mutual(w.g.nodes, x, d) && Mutual(w.g.nodes, id, d) && Mutual(w.g.nodes, x, id);
    }
    forall x ensures ListsOk(nodes', x) {
      assert ListsOk(w.g.nodes, x);
    }
  }

  /** One step from a symmetric state: only a read or a completion can break symmetry, exactly when it is not clean. */
  lemma SymmetricStep(w: World, a: Action)
    requires IdentityInv(w) && Symmetric(w.g.nodes) && Enabled(w, a)
    ensures Symmetric(Next(w, a).g.nodes) <==> Clean(w, a)
  {
    match a
    case Make(n) => MakeSymmetric(w, n);
    case SpawnSlot(_) => SameListsSymmetric(w.g.nodes, Next(w, a).g.nodes);
    case SpawnEffect(_) =>
    case Touch(t, x) =>
      if Generation(w.g, w.tasks[t].node) == w.tasks[t].gen && x != w.tasks[t].node {
        RegisterSymmetricIff(w.g.nodes, x, w.tasks[t].node);
      }
    case FinishSlot(t, order, v) =>
      if Writes(w, t) {
        CompletionSymmetricIff(w, t, order, Some(v));
      }
    case FinishEffect(t, order) =>
      if Writes(w, t) {
        CompletionSymmetricIff(w, t, order, None);
      }
    case WalkFrom(roots) => HitSymmetric(w.g.nodes, Cone(w.g.nodes, roots));
    case Dispose(h, kind) =>
      if Names(w.g, h, kind) {
        DisposeSymmetric(w.g, h, kind);
      }
    case Teardown(k) => HitSymmetric(w.g.nodes, Cone(w.g.nodes, Elems(w.teardowns[k])));
  }

  ghost predicate SymmetricUpTo(ws: seq<World>, n: nat)
    requires n < |ws|
  {
    forall i :: 0 <= i <= n ==> Symmetric(ws[i].g.nodes)
  }

  ghost predicate CleanUpTo(ws: seq<World>, acts: seq<Action>, n: nat)
    requires n <= |acts| < |ws|
  {
    forall i :: 0 <= i < n ==> Clean(ws[i], acts[i])
  }

  lemma UpToStep(ws: seq<World>, acts: seq<Action>, n: nat)
    requires n < |acts| < |ws|
    ensures SymmetricUpTo(ws, n + 1) <==> SymmetricUpTo(ws, n) && Symmetric(ws[n + 1].g.nodes)
    ensures CleanUpTo(ws, acts, n + 1) <==> CleanUpTo(ws, acts, n) && Clean(ws[n], acts[n])
    ensures SymmetricUpTo(ws, n) ==> Symmetric(ws[n].g.nodes)
  {
  }

  /**
   In every execution, forward and reverse edges stay mutual and duplicate-free up to step `n` if
   and only if every read and every completion before it was clean.
   */
  lemma {:induction false} EdgesStaySymmetric(ws: seq<World>, acts: seq<Action>, n: nat)
    requires IsExecution(ws, acts) && n <= |acts|
    ensures SymmetricUpTo(ws, n) <==> CleanUpTo(ws, acts, n)
    decreases n
  {
    if n > 0 {
      EdgesStaySymmetric(ws, acts, n - 1);
      UpToStep(ws, acts, n - 1);
      if SymmetricUpTo(ws, n - 1) {
        IdentityReachable(ws, acts, n - 1);
        SymmetricStep(ws[n - 1], acts[n - 1]);
      }
    }
  }

  /** In such an execution no survivor names a retired id, in either direction. */
  lemma RetiredIdsAreNotNamed(ws: seq<World>, acts: seq<Action>, n: nat, x: Id, d: Id)
    requires IsExecution(ws, acts) && n <= |acts| && CleanUpTo(ws, acts, n)
    ensures Edge(ws[n].g.nodes, x, d) || Reads(ws[n].g.nodes, d, x) ==>
            Readable(ws[n].g.nodes, x) && Reader(ws[n].g.nodes, d)
  {
    EdgesStaySymmetric(ws, acts, n);
    SymmetricNamesLive(ws[n].g.nodes, x, d);
    assert Mutual(ws[n].g.nodes, x, d);
  }

  // ---- disciplines that are enough -----------------------------------------------------

  /** A task of an incarnation that is still there belongs to a node of its kind. */
  ghost predicate TaskKind(w: World, t: nat) {
    t < |w.tasks| ==>
      var task := w.tasks[t];
      && task.gen <= Generation(w.g, task.node)
      && (task.gen == Generation(w.g, task.node) ==>
            task.node in w.g.nodes && KindOf(w.g.nodes[task.node]) == if task.effect then EffectKind else ComputedKind)
  }

  ghost predicate KindInv(w: World) {
    IdentityInv(w) && forall t: nat {:trigger TaskKind(w, t)} :: TaskKind(w, t)
  }

  /** A node that keeps its generation stays, with its kind. */
  lemma KindsStay(w: World, a: Action, x: Id)
    requires IdentityInv(w) && Enabled(w, a) && x in w.g.nodes && Generation(Next(w, a).g, x) == Generation(w.g, x)
    ensures x in Next(w, a).g.nodes && KindOf(Next(w, a).g.nodes[x]) == KindOf(w.g.nodes[x])
  {
    if a.Make? {
      NewNodeIds(w.g, a.node);
    } else if a.Dispose? && Names(w.g, a.h, a.kind) {
      DisposeIds(w.g, a.h, a.kind);
    } else {
      QuietKeepsIds(w, a);
    }
  }

  lemma KindStep(w: World, a: Action)
    requires KindInv(w) && Enabled(w, a) && Safe(w, a)
    ensures KindInv(Next(w, a))
  {
    IdentityStep(w, a);
    forall t: nat ensures TaskKind(Next(w, a), t) {
      assert TaskKind(w, t);
      if t < |w.tasks| && w.tasks[t].node in w.g.nodes && Generation(Next(w, a).g, w.tasks[t].node) == w.tasks[t].gen {
        KindsStay(w, a, w.tasks[t].node);
      }
    }
  }

  ghost predicate InTeardown(w: World, d: Id) {
    exists k :: 0 <= k < |w.teardowns| && d in w.teardowns[k]
  }

  /** `x` is a live node that lists its reader `d`. */
  ghost predicate Tied(nodes: Nodes, d: Id, x: Id) {
    Readable(nodes, x) && (x == d || Edge(nodes, x, d))
  }

  /** An unfinished compute whose slot still has the generation and revision it was spawned at. */
  ghost predicate Current(w: World, t: nat) {
    && t < |w.tasks| && !w.tasks[t].done && !w.tasks[t].effect
    && Generation(w.g, w.tasks[t].node) == w.tasks[t].gen
    && IsComputed(w.g.nodes, w.tasks[t].node)
    && w.g.nodes[w.tasks[t].node].revision == w.tasks[t].rev
  }

  ghost predicate TaskOk(w: World, t: nat) {
    t < |w.tasks| ==>
      var task := w.tasks[t];
      && (task.gen == Generation(w.g, task.node) && !task.effect && IsComputed(w.g.nodes, task.node) ==>
            task.rev <= w.g.nodes[task.node].revision)
      && (Current(w, t) ==>
            && w.g.nodes[task.node].state == Computing(task.rev)
            && w.g.nodes[task.node].notifier == Some(t)
            && (InTeardown(w, task.node) || forall x :: x in task.tracked ==> Tied(w.g.nodes, task.node, x)))
  }

  ghost predicate TasksOk(w: World) {
    forall t: nat {:trigger TaskOk(w, t)} :: TaskOk(w, t)
  }

  ghost predicate SymInv(w: World) {
    KindInv(w) && Symmetric(w.g.nodes) && TasksOk(w)
  }

  /**
   The disciplines, as a caller could check them: an effect run is captured while its id is an
   effect's; reads go through live handles; an aborted compute of a retired slot does not complete,
   and no compute completes while a disposal it must hear of is between its two sections; an
   effect completes only if nothing it read has been disposed.
   */
  ghost predicate Safe(w: World, a: Action)
    requires Enabled(w, a)
  {
    match a
    case SpawnEffect(e) => IsEffect(w.g.nodes, e)
    case Touch(_, x) => Readable(w.g.nodes, x)
    case FinishSlot(t, _, _) =>
      Writes(w, t) ==> Generation(w.g, w.tasks[t].node) == w.tasks[t].gen && !InTeardown(w, w.tasks[t].node)
    case FinishEffect(t, _) =>
      Writes(w, t) ==> forall x :: x in w.tasks[t].tracked ==> Readable(w.g.nodes, x)
    case _ => true
  }

  /** Slot `d` is untouched, keeps the ties it has, and keeps every teardown it is in. */
  ghost predicate SlotKept(w: World, w': World, d: Id)
    requires IsComputed(w.g.nodes, d)
  {
    && IsComputed(w'.g.nodes, d)
    && w'.g.nodes[d].revision == w.g.nodes[d].revision
    && w'.g.nodes[d].state == w.g.nodes[d].state
    && w'.g.nodes[d].notifier == w.g.nodes[d].notifier
    && (InTeardown(w, d) ==> InTeardown(w', d))
    && (InTeardown(w', d) || forall x :: Tied(w.g.nodes, d, x) ==> Tied(w'.g.nodes, d, x))
  }

  /** A task whose slot is kept or superseded stays accounted for. */
  lemma TaskKept(w: World, w': World, t: nat)
    requires TaskKind(w, t) && TaskOk(w, t) && t < |w.tasks| && t < |w'.tasks| && w'.tasks[t] == w.tasks[t]
    requires Generation(w.g, w.tasks[t].node) <= Generation(w'.g, w.tasks[t].node)
    requires
      var d := w.tasks[t].node;
      Generation(w.g, d) == Generation(w'.g, d) && IsComputed(w.g.nodes, d) ==>
        || SlotKept(w, w', d)
        || (IsComputed(w'.g.nodes, d) && w'.g.nodes[d].revision > w.g.nodes[d].revision)
    ensures TaskOk(w', t)
  {
  }

  lemma MakeKeeps(w: World, n: Node)
    requires SymInv(w) && Enabled(w, Make(n))
    ensures TasksOk(Next(w, Make(n)))
  {
    NewNodeIds(w.g, n);
    forall t: nat ensures TaskOk(Next(w, Make(n)), t) {
      assert TaskOk(w, t) && TaskKind(w, t);
    }
  }

  lemma SpawnKeeps(w: World, a: Action)
    requires SymInv(w) && Enabled(w, a) && (a.SpawnSlot? || a.SpawnEffect?)
    ensures TasksOk(Next(w, a))
  {
    forall t: nat ensures TaskOk(Next(w, a), t) {
      assert TaskOk(w, t) && TaskKind(w, t);
    }
  }

  lemma TouchKeeps(w: World, t0: nat, x0: Id)
    requires SymInv(w) && Enabled(w, Touch(t0, x0)) && Readable(w.g.nodes, x0)
    ensures TasksOk(Next(w, Touch(t0, x0)))
  {
    forall t: nat ensures TaskOk(Next(w, Touch(t0, x0)), t) {
      assert TaskKind(w, t0) && TaskKind(w, t) && TaskOk(w, t0) && TaskOk(w, t);
      TouchKeepsTask(w, Next(w, Touch(t0, x0)), t0, x0, t);
    }
  }

  lemma TouchKeepsTask(w: World, w': World, t0: nat, x0: Id, t: nat)
    requires TaskKind(w, t0) && TaskKind(w, t) && TaskOk(w, t0) && TaskOk(w, t)
    requires Enabled(w, Touch(t0, x0)) && w' == Next(w, Touch(t0, x0)) && Readable(w.g.nodes, x0)
    ensures TaskOk(w', t)
  {
    RegisterFacts(w.g.nodes, x0, w.tasks[t0].node);
    assert forall x :: x in w.g.nodes ==> x in w'.g.nodes && SameButEdges(w.g.nodes[x], w'.g.nodes[x]);
    assert forall x, d :: Edge(w.g.nodes, x, d) ==> Edge(w'.g.nodes, x, d);
    if t < |w.tasks| {
      var d := w.tasks[t].node;
      assert d in w.g.nodes ==> SameButEdges(w.g.nodes[d], w'.g.nodes[d]);
      assert forall x :: Tied(w.g.nodes, d, x) ==> Tied(w'.g.nodes, d, x);
      if t != t0 {
        TaskKept(w, w', t);
      }
    }
  }

  /** The sweep of one walk: slots in `hit` are superseded, the rest stand. */
  lemma SweepKeeps(w: World, w': World, hit: set<Id>)
    requires SymInv(w) && w'.g == w.g.(nodes := InvalidateSet(w.g.nodes, hit)) && w'.tasks == w.tasks
    requires forall d :: IsComputed(w.g.nodes, d) && d !in hit && InTeardown(w, d) ==> InTeardown(w', d)
    ensures TasksOk(w')
  {
    assert forall x, d :: Edge(w.g.nodes, x, d) ==> Edge(w'.g.nodes, x, d);
    forall t: nat ensures TaskOk(w', t) {
      assert TaskOk(w, t) && TaskKind(w, t);
      if t < |w.tasks| {
        TaskKept(w, w', t);
      }
    }
  }

  lemma TeardownKeeps(w: World, k: nat)
    requires SymInv(w) && k < |w.teardowns|
    ensures TasksOk(Next(w, Teardown(k)))
  {
    var w' := Next(w, Teardown(k));
    var roots := Elems(w.teardowns[k]);
    var hit := Cone(w.g.nodes, roots);
    ConeIsClosed(w.g.nodes, roots);
    forall d | IsComputed(w.g.nodes, d) && d !in hit && InTeardown(w, d) ensures InTeardown(w', d) {
      var i :| 0 <= i < |w.teardowns| && d in w.teardowns[i];
      var j := if i < k then i else i - 1;
      assert w'.teardowns[j] == w.teardowns[i];
    }
    SweepKeeps(w, w', hit);
  }

  lemma DisposeKeeps(w: World, h: Handle, kind: Kind)
    requires SymInv(w)
    ensures TasksOk(Next(w, Dispose(h, kind)))
  {
    var w' := Next(w, Dispose(h, kind));
    IdentityStep(w, Dispose(h, kind));
    assert forall k :: 0 <= k < |w.teardowns| ==> w'.teardowns[k] == w.teardowns[k];
    if Names(w.g, h, kind) {
      DisposeSymmetric(w.g, h, kind);
      DisposeIds(w.g, h, kind);
    }
    forall t: nat ensures TaskOk(w', t) {
      assert TaskOk(w, t) && TaskKind(w, t);
      if t < |w.tasks| {
        var d := w.tasks[t].node;
        if Names(w.g, h, kind) && d != h.id && IsComputed(w.g.nodes, d) {
          DisposeKeepsSlot(w, w', h, kind, d);
        }
        TaskKept(w, w', t);
      }
    }
  }

  /** A slot that loses a tie to a disposal is in that disposal's teardown. */
  lemma DisposeKeepsSlot(w: World, w': World, h: Handle, kind: Kind, d: Id)
    requires Names(w.g, h, kind) && d != h.id && IsComputed(w.g.nodes, d)
    requires w' == Next(w, Dispose(h, kind)) && Forgets(w.g.nodes, w'.g.nodes, h.id)
    requires forall k :: 0 <= k < |w.teardowns| ==> w'.teardowns[k] == w.teardowns[k]
    ensures SlotKept(w, w', d)
  {
    assert SameButEdges(w.g.nodes[d], w'.g.nodes[d]);
    if Edge(w.g.nodes, h.id, d) {
      assert w'.teardowns[|w.teardowns|] == Dependents(w.g.nodes[h.id]);
    } else {
      forall x | Tied(w.g.nodes, d, x) ensures Tied(w'.g.nodes, d, x) {
        assert x != h.id;
        assert SameButEdges(w.g.nodes[x], w'.g.nodes[x]);
      }
    }
  }

  /**
   From a symmetric state, a completion that writes keeps the edges symmetric if and only if
   everything the run tracked is still readable.
   */
  lemma CompletionSymmetricIff(w: World, t: nat, order: seq<Id>, result: Option<Value>)
    requires Symmetric(w.g.nodes) && t < |w.tasks| && Writes(w, t) && w.tasks[t].effect == result.None?
    requires NoDup(order) && Elems(order) == w.tasks[t].tracked
    ensures Symmetric(FinishNodes(w, t, order, result)) <==>
            forall x :: x in w.tasks[t].tracked ==> Readable(w.g.nodes, x)
  {
    var owner := w.tasks[t].node;
    var nodes, nodes' := UpdateDependencies(w.g.nodes, owner, order), FinishNodes(w, t, order, result);
    assert forall x :: x in order <==> x in Elems(order);
    RewireSymmetricIff(w.g.nodes, owner, order);
    if Symmetric(nodes) {
      SameListsSymmetric(nodes, nodes');
    }
    if Symmetric(nodes') {
      SameListsSymmetric(nodes', nodes);
    }
  }

  lemma SameListsSymmetric(nodes: Nodes, nodes': Nodes)
    requires nodes'.Keys == nodes.Keys
    requires forall x :: x in nodes ==>
               Dependents(nodes'[x]) == Dependents(nodes[x]) && Dependencies(nodes'[x]) == Dependencies(nodes[x])
    requires Symmetric(nodes)
    ensures Symmetric(nodes')
  {
    forall x, d ensures Mutual(nodes', x, d) {
      assert Mutual(nodes, x, d);
    }
    forall x ensures ListsOk(nodes', x) {
      assert ListsOk(nodes, x);
    }
  }

  /** `w'` is `w` after task `t0` completed. */
  ghost predicate Finished(w: World, w': World, t0: nat, order: seq<Id>, result: Option<Value>) {
    && t0 < |w.tasks| && !w.tasks[t0].done && w.tasks[t0].effect == result.None? && NoDup(order)
    && w' == w.(g := w.g.(nodes := FinishNodes(w, t0, order, result)),
                tasks := w.tasks[t0 := w.tasks[t0].(done := true)])
    && (!w.tasks[t0].effect && Writes(w, t0) ==> Generation(w.g, w.tasks[t0].node) == w.tasks[t0].gen)
  }

  lemma FinishKeeps(w: World, w': World, t0: nat, order: seq<Id>, result: Option<Value>)
    requires SymInv(w) && Finished(w, w', t0, order, result)
    ensures TasksOk(w')
  {
    forall t: nat ensures TaskOk(w', t) {
      FinishKeepsTask(w, w', t0, order, result, t);
    }
  }

  lemma FinishKeepsTask(w: World, w': World, t0: nat, order: seq<Id>, result: Option<Value>, t: nat)
    requires SymInv(w) && Finished(w, w', t0, order, result)
    ensures TaskOk(w', t)
  {
    assert TaskOk(w, t) && TaskOk(w, t0) && TaskKind(w, t) && TaskKind(w, t0);
    if t < |w.tasks| && t != t0 {
      var d := w.tasks[t].node;
      if Writes(w, t0) && d == w.tasks[t0].node {
        FinishKeepsRival(w, w', t0, order, result, t);
      } else {
        if Writes(w, t0) && d in w.g.nodes {
          FinishKeepsOthers(w, w', t0, order, result, d);
        }
        TaskKept(w, w', t);
      }
    }
  }

  /** Another task of the node that has just completed is not current. */
  lemma FinishKeepsRival(w: World, w': World, t0: nat, order: seq<Id>, result: Option<Value>, t: nat)
    requires Finished(w, w', t0, order, result) && Writes(w, t0)
    requires TaskOk(w, t) && TaskOk(w, t0) && TaskKind(w, t) && TaskKind(w, t0)
    requires t < |w.tasks| && t != t0 && w.tasks[t].node == w.tasks[t0].node
    ensures TaskOk(w', t)
  {
    UpdateKeepsIds(w.g.nodes, w.tasks[t0].node, order);
  }

  lemma FinishKeepsOthers(w: World, w': World, t0: nat, order: seq<Id>, result: Option<Value>, d: Id)
    requires Symmetric(w.g.nodes) && Finished(w, w', t0, order, result)
    requires Writes(w, t0) && d != w.tasks[t0].node && d in w.g.nodes
    ensures IsComputed(w.g.nodes, d) ==> SlotKept(w, w', d)
  {
    var owner := w.tasks[t0].node;
    var nodes := UpdateDependencies(w.g.nodes, owner, order);
    forall x ensures Edge(w'.g.nodes, x, d) <==> Edge(w.g.nodes, x, d) {
      assert ListsOk(w.g.nodes, x) && Mutual(w.g.nodes, x, owner);
      RewiredEdges(w.g.nodes, owner, order, x, d);
      assert Edge(w'.g.nodes, x, d) <==> Edge(nodes, x, d);
    }
    forall x | Readable(w.g.nodes, x) ensures Readable(w'.g.nodes, x) {
    }
  }

  /** A safe step is clean. */
  lemma SafeIsClean(w: World, a: Action)
    requires SymInv(w) && Enabled(w, a) && Safe(w, a)
    ensures Clean(w, a)
  {
    if a.FinishSlot? || a.Touch? {
      assert TaskOk(w, a.t) && TaskKind(w, a.t);
    }
  }

  lemma SafeStep(w: World, a: Action)
    requires SymInv(w) && Enabled(w, a) && Safe(w, a)
    ensures SymInv(Next(w, a))
  {
    KindStep(w, a);
    SafeIsClean(w, a);
    SymmetricStep(w, a);
    match a
    case Make(n) => MakeKeeps(w, n);
    case SpawnSlot(_) => SpawnKeeps(w, a);
    case SpawnEffect(_) => SpawnKeeps(w, a);
    case Touch(t, x) => TouchKeeps(w, t, x);
    case FinishSlot(t, order, v) => FinishKeeps(w, Next(w, a), t, order, Some(v));
    case FinishEffect(t, order) => FinishKeeps(w, Next(w, a), t, order, None);
    case WalkFrom(roots) => SweepKeeps(w, Next(w, a), Cone(w.g.nodes, roots));
    case Dispose(h, kind) => DisposeKeeps(w, h, kind);
    case Teardown(k) => TeardownKeeps(w, k);
  }

  ghost predicate IsSafeExecution(ws: seq<World>, acts: seq<Action>) {
    IsExecution(ws, acts) && forall i :: 0 <= i < |acts| ==> Enabled(ws[i], acts[i]) && Safe(ws[i], acts[i])
  }

  lemma {:induction false} SafeReachable(ws: seq<World>, acts: seq<Action>, i: nat)
    requires IsSafeExecution(ws, acts) && i < |ws|
    ensures SymInv(ws[i])
    decreases i
  {
    if i > 0 {
      SafeReachable(ws, acts, i - 1);
      SafeStep(ws[i - 1], acts[i - 1]);
    }
  }

  /** A caller that keeps the disciplines always has symmetric edges. */
  lemma SafeStaysSymmetric(ws: seq<World>, acts: seq<Action>, i: nat)
    requires IsSafeExecution(ws, acts) && i < |ws|
    ensures Symmetric(ws[i].g.nodes)
  {
    SafeReachable(ws, acts, i);
  }

  /** Outside the window of a disposal, a compute of a live slot only ever tracks readable nodes. */
  lemma TrackersStayReadable(ws: seq<World>, acts: seq<Action>, i: nat, t: nat)
    requires IsSafeExecution(ws, acts) && i < |ws|
    requires Current(ws[i], t) && !InTeardown(ws[i], ws[i].tasks[t].node)
    ensures forall x :: x in ws[i].tasks[t].tracked ==> Readable(ws[i].g.nodes, x)
  {
    SafeReachable(ws, acts, i);
    assert TaskOk(ws[i], t) && TaskKind(ws[i], t);
  }
}
