/**
 The async context as it is written: one object whose fields are updated in place, with
 worklists for the frontier and disposal walks. Each method is one lock section and is
 proved against the function of `Graph` that the interleaving models step with.
 */
module AsyncContexts {
  import opened Prelude
  import opened Graph

  class AsyncContext {
    var nodes: Nodes
    var generations: seq<nat>
    var nextId: nat
    var freeIds: seq<Id>
    var batchDepth: nat
    var batchedCells: set<Id>
    var pending: seq<Id>
    var scheduled: set<Id>

    ghost function G(): Graph
      reads this
    {
      Graph(nodes, generations, nextId, freeIds, batchDepth, batchedCells, pending, scheduled)
    }

    constructor ()
      ensures G() == EMPTY_GRAPH
    {
      nodes, generations, nextId, freeIds := map[], [], 0, [];
      batchDepth, batchedCells, pending, scheduled := 0, {}, [], {};
    }

    /** `source`, `computed_async` and the node half of `effect_async`. */
    method Create(n: Node) returns (h: Handle)
      modifies this
      ensures G() == NewNode(old(G()), n).0
      ensures h == Handle(NewNode(old(G()), n).1, Generation(old(G()), NewNode(old(G()), n).1))
    {
      var id: Id;
      if |freeIds| > 0 {
        id := freeIds[|freeIds| - 1];
        freeIds := freeIds[..|freeIds| - 1];
      } else {
        id := nextId;
        nextId := nextId + 1;
      }
      var gen := if id < |generations| then generations[id] else 0;
      while |generations| <= id
        invariant |old(generations)| <= |generations|
        invariant |generations| <= id + 1 || |generations| == |old(generations)|
        invariant generations == old(generations) + seq(|generations| - |old(generations)|, _ => 0)
        invariant batchDepth == old(batchDepth) && batchedCells == old(batchedCells)
        invariant pending == old(pending) && scheduled == old(scheduled) && nodes == old(nodes)
        invariant nextId == AllocId(old(G())).0.nextId && freeIds == AllocId(old(G())).0.freeIds
        decreases id + 1 - |generations|
      {
        generations := generations + [0];
      }
      nodes := nodes[id := n];
      h := Handle(id, gen);
    }

    /** `register_dependency_locked` */
    method RegisterDependency(dep: Id, dependent: Id)
      modifies this`nodes
      ensures nodes == Register(old(nodes), dep, dependent)
    {
      if dep == dependent {
        return;
      }
      if dependent in nodes {
        nodes := nodes[dependent := AddDependency(nodes[dependent], dep)];
      }
      if dep in nodes {
        nodes := nodes[dep := AddDependent(nodes[dep], dependent)];
      }
    }

    /** `update_dependencies` and `update_effect_dependencies`: the old and new sets are visited in any order. */
    method UpdateOwnDependencies(owner: Id, tracked: seq<Id>)
      modifies this`nodes
      ensures nodes == UpdateDependencies(old(nodes), owner, tracked)
    {
      if owner !in nodes || nodes[owner].Source? {
        return;
      }
      var before := Elems(nodes[owner].dependencies);
      DropFrom(before - Elems(tracked), owner);
      nodes := nodes[owner := nodes[owner].(dependencies := tracked)];
      AddTo(Elems(tracked), owner);
    }

    method DropFrom(ids: set<Id>, owner: Id)
      modifies this`nodes
      ensures nodes == map x | x in old(nodes) ::
                if x in ids then RemoveDependent(old(nodes)[x], owner) else old(nodes)[x]
    {
      var todo := ids;
      while todo != {}
        invariant todo <= ids
        invariant nodes.Keys == old(nodes).Keys
        invariant forall x :: x in nodes ==>
                    nodes[x] == if x in ids && x !in todo then RemoveDependent(old(nodes)[x], owner) else old(nodes)[x]
        decreases todo
      {
        var x :| x in todo;
        if x in nodes {
          nodes := nodes[x := RemoveDependent(nodes[x], owner)];
        }
        todo := todo - {x};
      }
    }

    method AddTo(ids: set<Id>, owner: Id)
      modifies this`nodes
      ensures nodes == map x | x in old(nodes) :: if x in ids then AddDependent(old(nodes)[x], owner) else old(nodes)[x]
    {
      var todo := ids;
      while todo != {}
        invariant todo <= ids
        invariant nodes.Keys == old(nodes).Keys
        invariant forall x :: x in nodes ==>
                    nodes[x] == if x in ids && x !in todo then AddDependent(old(nodes)[x], owner) else old(nodes)[x]
        decreases todo
      {
        var x :| x in todo;
        if x in nodes {
          nodes := nodes[x := AddDependent(nodes[x], owner)];
        }
        todo := todo - {x};
      }
    }

    /** The locked walk of `invalidate_frontier_async`: a stack, a visited list and the effects met. */
    method InvalidateFrontier(roots: seq<Id>) returns (effects: seq<Id>)
      modifies this`nodes
      ensures nodes == Walk(old(nodes), Elems(roots))
      ensures Elems(effects) == AffectedEffects(old(nodes), Elems(roots))
    {
      ghost var before := nodes;
      var stack := roots;
      var visited: seq<Id> := [];
      effects := [];
      ConeIsClosed(before, Elems(roots));
      while stack != []
        invariant nodes == InvalidateSet(before, VisitedSlots(before, visited))
        invariant FrontierInv(before, Elems(roots), Cone(before, Elems(roots)), stack, visited, effects)
        decreases |before.Keys - Elems(visited)|, |stack|
      {
        stack, visited, effects := PopOne(stack, visited, effects, before, Elems(roots), Cone(before, Elems(roots)));
      }
      FrontierDone(before, Elems(roots), visited, effects);
    }

    /** One turn of the worklist loop. */
    method PopOne(stack: seq<Id>, visited: seq<Id>, effects: seq<Id>, ghost before: Nodes, ghost roots: set<Id>,
        ghost cone: set<Id>)
      returns (stack': seq<Id>, visited': seq<Id>, effects': seq<Id>)
      requires stack != []
      requires nodes == InvalidateSet(before, VisitedSlots(before, visited))
      requires FrontierInv(before, roots, cone, stack, visited, effects)
      modifies this`nodes
      ensures nodes == InvalidateSet(before, VisitedSlots(before, visited'))
      ensures FrontierInv(before, roots, cone, stack', visited', effects')
      ensures |before.Keys - Elems(visited')| < |before.Keys - Elems(visited)|
              || (before.Keys - Elems(visited') == before.Keys - Elems(visited) && |stack'| < |stack|)
    {
      var id := stack[|stack| - 1];
      stack', visited', effects' := stack[..|stack| - 1], visited, effects;
      assert stack == stack' + [id];
      if id in visited {
        FrontierSkip(before, roots, cone, stack', id, visited, effects);
        return;
      }
      FewerLeft(before, visited, id);
      visited' := visited + [id];
      if id in nodes && nodes[id].Computed? {
        FrontierExpand(before, roots, cone, stack', id, visited, effects);
        InvalidateOneMore(before, VisitedSlots(before, visited), id);
        SameSplit(before, VisitedSlots(before, visited), before[id].dependents);
        var pushes, more := VisitSlot(id);
        stack', effects' := stack' + pushes, effects + more;
      } else {
        FrontierLeaf(before, roots, cone, stack', id, visited, effects);
        if id in nodes && nodes[id].Effect? {
          effects' := effects + [id];
        }
      }
    }

    /** Empty one slot; its dependents are pushed, or collected when they are effects. */
    method VisitSlot(id: Id) returns (pushes: seq<Id>, effects: seq<Id>)
      requires IsComputed(nodes, id)
      modifies this`nodes
      ensures nodes == old(nodes)[id := Invalidate(old(nodes)[id])]
      ensures pushes == NonEffects(old(nodes), old(nodes)[id].dependents)
      ensures effects == EffectsAmong(old(nodes), old(nodes)[id].dependents)
    {
      pushes, effects := SplitDependents(nodes[id].dependents);
      nodes := nodes[id := Invalidate(nodes[id])];
    }

    method SplitDependents(dependents: seq<Id>) returns (pushes: seq<Id>, effects: seq<Id>)
      ensures pushes == NonEffects(nodes, dependents) && effects == EffectsAmong(nodes, dependents)
    {
      pushes, effects := [], [];
      var i := 0;
      while i < |dependents|
        invariant 0 <= i <= |dependents|
        invariant pushes == NonEffects(nodes, dependents[..i]) && effects == EffectsAmong(nodes, dependents[..i])
      {
        assert dependents[..i + 1] == dependents[..i] + [dependents[i]];
        SplitSnoc(nodes, dependents[..i], dependents[i]);
        if dependents[i] in nodes && nodes[dependents[i]].Effect? {
          effects := effects + [dependents[i]];
        } else {
          pushes := pushes + [dependents[i]];
        }
        i := i + 1;
      }
      assert dependents[..i] == dependents;
    }

    /** The locked walk of `invalidate_disposed_dependents`: the same cone, no effect is scheduled. */
    method InvalidateDisposedDependents(roots: seq<Id>)
      modifies this`nodes
      ensures nodes == Walk(old(nodes), Elems(roots))
    {
      var _ := InvalidateFrontier(roots);
    }

    /** The locked part of `write_source`. */
    method WriteSource(s: Id, v: Value) returns (due: Option<seq<Id>>)
      requires IsSource(nodes, s)
      modifies this
      ensures G() == WriteCell(old(G()), s, v).0 && due == WriteCell(old(G()), s, v).1
    {
      if nodes[s].value == v {
        return None;
      }
      nodes := nodes[s := nodes[s].(value := v)];
      if batchDepth > 0 {
        batchedCells := batchedCells + {s};
        return None;
      }
      return Some(nodes[s].dependents);
    }

    /** The locked tail of `batch`. */
    method LeaveBatch() returns (cells: Option<set<Id>>)
      requires batchDepth > 0
      modifies this
      ensures G() == ExitBatch(old(G())).0 && cells == ExitBatch(old(G())).1
    {
      batchDepth := batchDepth - 1;
      if batchDepth > 0 {
        return None;
      }
      cells := Some(batchedCells);
      batchedCells := {};
    }

    /** `schedule_async_effect` */
    method ScheduleEffect(id: Id)
      modifies this
      ensures G() == Schedule(old(G()), id)
    {
      if id in nodes && nodes[id].Effect? {
        nodes := nodes[id := nodes[id].(forceRun := true)];
      }
      if id !in scheduled {
        scheduled := scheduled + {id};
        pending := pending + [id];
      }
    }

    /** `detach_edges_locked` followed by `retire_id_locked`, for sources and computeds. */
    method Dispose(h: Handle, kind: Kind) returns (stale: seq<Id>)
      requires kind != EffectKind
      modifies this
      ensures G() == DisposeNode(old(G()), h, kind).0 && stale == DisposeNode(old(G()), h, kind).1
    {
      var gen := if h.id < |generations| then generations[h.id] else 0;
      if gen != h.gen || h.id !in nodes || KindOf(nodes[h.id]) != kind {
        return [];
      }
      var n := nodes[h.id];
      nodes := nodes - {h.id};
      DetachUpstream(Dependencies(n), h.id);
      var dependents := Dependents(n);
      ghost var mid := nodes;
      var i := 0;
      while i < |dependents|
        invariant 0 <= i <= |dependents|
        invariant DropForward(nodes, dependents[i..], h.id) == DropForward(mid, dependents, h.id)
        invariant G() == old(G()).(nodes := nodes)
      {
        if dependents[i] in nodes {
          nodes := nodes[dependents[i] := RemoveDependency(nodes[dependents[i]], h.id)];
        }
        i := i + 1;
      }
      RetireId(h.id);
      return dependents;
    }

    method DetachUpstream(deps: seq<Id>, id: Id)
      modifies this`nodes
      ensures nodes == DropReverse(old(nodes), deps, id)
    {
      var i := 0;
      while i < |deps|
        invariant 0 <= i <= |deps|
        invariant DropReverse(nodes, deps[i..], id) == DropReverse(old(nodes), deps, id)
      {
        if deps[i] in nodes {
          nodes := nodes[deps[i] := RemoveDependent(nodes[deps[i]], id)];
        }
        i := i + 1;
      }
    }

    method RetireId(id: Id)
      modifies this
      ensures G() == Retire(old(G()), id)
    {
      nodes := nodes - {id};
      if id < |generations| {
        generations := generations[id := generations[id] + 1];
      }
      freeIds := freeIds + [id];
    }

    /** The locked part of `dispose_async_effect`. */
    method DisposeAsyncEffect(h: Handle) returns (cleanup: Option<nat>)
      modifies this
      ensures G() == DisposeEffect(old(G()), h).0 && cleanup == DisposeEffect(old(G()), h).1
    {
      var gen := if h.id < |generations| then generations[h.id] else 0;
      if gen != h.gen || h.id !in nodes || !nodes[h.id].Effect? {
        return None;
      }
      pending := Without(pending, h.id);
      scheduled := scheduled - {h.id};
      cleanup := nodes[h.id].cleanup;
      DetachUpstream(nodes[h.id].dependencies, h.id);
      RetireId(h.id);
    }
  }

  // ---- the frontier worklist -------------------------------------------------

  ghost function VisitedSlots(nodes: Nodes, visited: seq<Id>): set<Id> {
    set x | x in visited && IsComputed(nodes, x)
  }

  ghost function EffectsAmong(nodes: Nodes, ids: seq<Id>): seq<Id> {
    if ids == [] then [] else (if IsEffect(nodes, ids[0]) then [ids[0]] else []) + EffectsAmong(nodes, ids[1..])
  }

  ghost function NonEffects(nodes: Nodes, ids: seq<Id>): seq<Id> {
    if ids == [] then [] else (if IsEffect(nodes, ids[0]) then [] else [ids[0]]) + NonEffects(nodes, ids[1..])
  }

  lemma {:induction false} SplitSnoc(nodes: Nodes, ids: seq<Id>, x: Id)
    ensures EffectsAmong(nodes, ids + [x]) == EffectsAmong(nodes, ids) + if IsEffect(nodes, x) then [x] else []
    ensures NonEffects(nodes, ids + [x]) == NonEffects(nodes, ids) + if IsEffect(nodes, x) then [] else [x]
  {
    if ids != [] {
      assert (ids + [x])[1..] == ids[1..] + [x];
      SplitSnoc(nodes, ids[1..], x);
    }
  }

  lemma {:induction false} SameSplit(nodes: Nodes, hit: set<Id>, ids: seq<Id>)
    ensures EffectsAmong(nodes, ids) == EffectsAmong(InvalidateSet(nodes, hit), ids)
    ensures NonEffects(nodes, ids) == NonEffects(InvalidateSet(nodes, hit), ids)
  {
    if ids != [] {
      SameSplit(nodes, hit, ids[1..]);
    }
  }

  lemma InvalidateOneMore(nodes: Nodes, hit: set<Id>, id: Id)
    requires id in nodes && id !in hit
    ensures InvalidateSet(nodes, hit + {id}) ==
            InvalidateSet(nodes, hit)[id := Invalidate(InvalidateSet(nodes, hit)[id])]
    ensures InvalidateSet(nodes, hit)[id] == nodes[id]
  {
  }

  lemma FewerLeft(nodes: Nodes, visited: seq<Id>, id: Id)
    requires id !in visited
    ensures id in nodes ==> |nodes.Keys - Elems(visited + [id])| < |nodes.Keys - Elems(visited)|
    ensures id !in nodes ==> nodes.Keys - Elems(visited + [id]) == nodes.Keys - Elems(visited)
  {
    assert nodes.Keys - Elems(visited + [id]) == nodes.Keys - Elems(visited) - {id};
  }

  lemma {:induction false} SplitElems(nodes: Nodes, ids: seq<Id>, x: Id)
    ensures x in EffectsAmong(nodes, ids) <==> x in ids && IsEffect(nodes, x)
    ensures x in NonEffects(nodes, ids) <==> x in ids && !IsEffect(nodes, x)
  {
    if ids != [] {
      SplitElems(nodes, ids[1..], x);
    }
  }

  /** `x` is a root, or is listed by a slot already visited. */
  ghost predicate Justified(nodes: Nodes, roots: set<Id>, visited: seq<Id>, x: Id) {
    x in roots || exists c :: c in VisitedSlots(nodes, visited) && Edge(nodes, c, x)
  }

  ghost predicate FrontierInv(nodes: Nodes, roots: set<Id>, cone: set<Id>, stack: seq<Id>, visited: seq<Id>,
      effects: seq<Id>) {
    && ClosedOver(nodes, roots, cone)
    && VisitedSlots(nodes, visited) <= cone
    && (forall x :: x in stack || x in visited || x in effects ==> Justified(nodes, roots, visited, x))
    && (forall x :: x in roots ==> x in stack || x in visited)
    && (forall c, x :: c in VisitedSlots(nodes, visited) && Edge(nodes, c, x) ==>
          x in (if IsEffect(nodes, x) then effects else stack + visited))
    && (forall x :: x in visited && IsEffect(nodes, x) ==> x in effects)
    && (forall x :: x in effects ==> IsEffect(nodes, x))
  }

  lemma FrontierSkip(nodes: Nodes, roots: set<Id>, cone: set<Id>, rest: seq<Id>, id: Id, visited: seq<Id>,
      effects: seq<Id>)
    requires FrontierInv(nodes, roots, cone, rest + [id], visited, effects) && id in visited
    ensures FrontierInv(nodes, roots, cone, rest, visited, effects)
  {
  }

  lemma FrontierLeaf(nodes: Nodes, roots: set<Id>, cone: set<Id>, rest: seq<Id>, id: Id, visited: seq<Id>,
      effects: seq<Id>)
    requires FrontierInv(nodes, roots, cone, rest + [id], visited, effects) && !IsComputed(nodes, id)
    ensures FrontierInv(nodes, roots, cone, rest, visited + [id],
                        if IsEffect(nodes, id) then effects + [id] else effects)
    ensures VisitedSlots(nodes, visited + [id]) == VisitedSlots(nodes, visited)
  {
    var effects' := if IsEffect(nodes, id) then effects + [id] else effects;
    assert VisitedSlots(nodes, visited + [id]) == VisitedSlots(nodes, visited);
    assert id in rest + [id];
    forall x | x in rest || x in visited + [id] || x in effects' ensures Justified(nodes, roots, visited + [id], x) {
      assert x in rest + [id] || x in visited || x in effects;
    }
    forall c, x | c in VisitedSlots(nodes, visited) && Edge(nodes, c, x)
      ensures x in (if IsEffect(nodes, x) then effects' else rest + (visited + [id]))
    {
      assert !IsEffect(nodes, x) ==> x in (rest + [id]) + visited;
    }
  }

  lemma FrontierExpand(nodes: Nodes, roots: set<Id>, cone: set<Id>, rest: seq<Id>, id: Id, visited: seq<Id>,
      effects: seq<Id>)
    requires FrontierInv(nodes, roots, cone, rest + [id], visited, effects) && IsComputed(nodes, id)
    ensures VisitedSlots(nodes, visited + [id]) == VisitedSlots(nodes, visited) + {id}
    ensures FrontierInv(nodes, roots, cone, rest + NonEffects(nodes, nodes[id].dependents), visited + [id],
                        effects + EffectsAmong(nodes, nodes[id].dependents))
  {
    var ds := nodes[id].dependents;
    assert VisitedSlots(nodes, visited + [id]) == VisitedSlots(nodes, visited) + {id};
    assert Justified(nodes, roots, visited, id);
    assert id in cone;
    forall x ensures x in EffectsAmong(nodes, ds) <==> x in ds && IsEffect(nodes, x)
             ensures x in NonEffects(nodes, ds) <==> x in ds && !IsEffect(nodes, x)
    {
      SplitElems(nodes, ds, x);
    }
    assert forall x :: x in ds ==> Edge(nodes, id, x);
    assert forall x :: Justified(nodes, roots, visited, x) ==> Justified(nodes, roots, visited + [id], x);
  }

  lemma FrontierDone(nodes: Nodes, roots: set<Id>, visited: seq<Id>, effects: seq<Id>)
    requires FrontierInv(nodes, roots, Cone(nodes, roots), [], visited, effects)
    ensures VisitedSlots(nodes, visited) == Cone(nodes, roots)
    ensures Elems(effects) == AffectedEffects(nodes, roots)
  {
    var slots := VisitedSlots(nodes, visited);
    assert ClosedOver(nodes, roots, slots);
    ConeIsLeast(nodes, roots, slots);
    forall e | e in effects ensures e in AffectedEffects(nodes, roots) {
      assert Justified(nodes, roots, visited, e);
    }
  }
}
