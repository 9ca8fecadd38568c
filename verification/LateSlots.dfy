/**
 The compute of a disposed slot that completes after all: exactly what it writes into the node
 that reuses its id, and a schedule in which it resolves that node.
 */
module LateSlots {
  import opened Prelude
  import opened Graph
  import opened Edges
  import opened Lifecycle

  /** An in-flight slot runs at its own revision. */
  ghost predicate RevisionOk(w: World, d: Id) {
    IsComputed(w.g.nodes, d) && w.g.nodes[d].state.Computing? ==> w.g.nodes[d].state.rev == w.g.nodes[d].revision
  }

  /** A completion may resolve the slot; it changes no revision. */
  lemma FinishKeepsRevision(w: World, t: nat, order: seq<Id>, result: Option<Value>, d: Id)
    requires RevisionOk(w, d) && t < |w.tasks| && w.tasks[t].effect == result.None?
    ensures RevisionOk(w.(g := w.g.(nodes := FinishNodes(w, t, order, result))), d)
  {
  }

  lemma RevisionStep(w: World, a: Action, d: Id)
    requires IdentityInv(w) && RevisionOk(w, d) && Enabled(w, a)
    ensures RevisionOk(Next(w, a), d)
  {
    match a
    case Make(n) => NewNodeIds(w.g, n);
    case Touch(t, x) => RegisterFacts(w.g.nodes, x, w.tasks[t].node);
    case FinishSlot(t, order, v) => FinishKeepsRevision(w, t, order, Some(v), d);
    case FinishEffect(t, order) => FinishKeepsRevision(w, t, order, None, d);
    case Dispose(h, kind) =>
      if Names(w.g, h, kind) {
        DisposeSame(w.g, h, kind);
      }
    case _ =>
  }

  lemma {:induction false} RevisionsReachable(ws: seq<World>, acts: seq<Action>, i: nat, d: Id)
    requires IsExecution(ws, acts) && i < |ws|
    ensures RevisionOk(ws[i], d)
    decreases i
  {
    if i > 0 {
      RevisionsReachable(ws, acts, i - 1, d);
      IdentityReachable(ws, acts, i - 1);
      RevisionStep(ws[i - 1], acts[i - 1], d);
    }
  }

  /**
   In every execution, the late completion of a slot that has been disposed writes into whatever
   has the id if and only if that is a slot at the revision the run was spawned at: it then
   replaces its dependencies and, if it is in flight, resolves it with its own result. Otherwise
   nothing changes.
   */
  lemma LateSlotWritesIff(ws: seq<World>, acts: seq<Action>, i: nat, t: nat, order: seq<Id>, v: Value)
    requires IsExecution(ws, acts) && i < |acts| && acts[i] == FinishSlot(t, order, v)
    requires t < |ws[i].tasks| && Generation(ws[i].g, ws[i].tasks[t].node) != ws[i].tasks[t].gen
    ensures
      var task, before, after := ws[i].tasks[t], ws[i].g.nodes, ws[i + 1].g.nodes;
      if IsComputed(before, task.node) && before[task.node].revision == task.rev then
        && IsComputed(after, task.node) && after[task.node].dependencies == order
        && if before[task.node].state.Computing?
           then after[task.node].state == Resolved && after[task.node].cached == Some(v)
           else after[task.node].state == before[task.node].state && after[task.node].cached == before[task.node].cached
      else ws[i + 1].g == ws[i].g
  {
    assert Enabled(ws[i], acts[i]) && ws[i + 1] == Next(ws[i], acts[i]);
    RevisionsReachable(ws, acts, i, ws[i].tasks[t].node);
  }

  // ---- the schedule ---------------------------------------------------------------

  /** Spawn a slot's compute, dispose the slot, let a new slot reuse the id and start, then complete the first. */
  function LateSlot(c: Compute, c': Compute, v: Value): seq<Action> {
    [Make(FreshComputed(c)), SpawnSlot(0), Dispose(Handle(0, 0), ComputedKind), Make(FreshComputed(c')), SpawnSlot(0),
     FinishSlot(0, [], v)]
  }

  const FIRST_TASK := Task(0, 0, 0, false, {}, false)
  const SECOND_TASK := Task(0, 1, 0, false, {}, false)

  function Made(c: Compute): World {
    World(Graph(map[0 := FreshComputed(c)], [0], 1, [], 0, {}, [], {}), [], [], [Handle(0, 0)])
  }

  function Started(c: Compute): World {
    World(Graph(map[0 := Computed(Computing(0), None, 0, c, [], [], Some(0))], [0], 1, [], 0, {}, [], {}),
          [FIRST_TASK], [], [Handle(0, 0)])
  }

  function Vacated(): World {
    World(Graph(map[], [1], 1, [0], 0, {}, [], {}), [FIRST_TASK], [[]], [Handle(0, 0)])
  }

  function Remade(c: Compute): World {
    World(Graph(map[0 := FreshComputed(c)], [1], 1, [], 0, {}, [], {}), [FIRST_TASK], [[]],
        [Handle(0, 0), Handle(0, 1)])
  }

  function Restarted(c: Compute): World {
    Remade(c).(g := Remade(c).g.(nodes := map[0 := Computed(Computing(0), None, 0, c, [], [], Some(1))]),
               tasks := [FIRST_TASK, SECOND_TASK])
  }

  function Aliased(c: Compute, v: Value): World {
    Restarted(c).(g := Remade(c).g.(nodes := map[0 := Computed(Resolved, Some(v), 0, c, [], [], Some(1))]),
                  tasks := [FIRST_TASK.(done := true), SECOND_TASK])
  }

  lemma FirstStarts(c: Compute)
    ensures Next(START, Make(FreshComputed(c))) == Made(c) && Next(Made(c), SpawnSlot(0)) == Started(c)
  {
    assert Next(START, Make(FreshComputed(c))).g == Made(c).g;
  }

  lemma FirstIsDisposed(c: Compute)
    ensures Next(Started(c), Dispose(Handle(0, 0), ComputedKind)) == Vacated()
  {
    assert Next(Started(c), Dispose(Handle(0, 0), ComputedKind)).g == Vacated().g;
  }

  lemma SecondStarts(c: Compute)
    ensures Next(Vacated(), Make(FreshComputed(c))) == Remade(c) && Next(Remade(c), SpawnSlot(0)) == Restarted(c)
  {
    assert Next(Vacated(), Make(FreshComputed(c))).g == Remade(c).g;
  }

  lemma FirstCompletes(c: Compute, v: Value)
    ensures Enabled(Restarted(c), FinishSlot(0, [], v)) && Next(Restarted(c), FinishSlot(0, [], v)) == Aliased(c, v)
  {
    assert UpdateDependencies(Restarted(c).g.nodes, 0, []) == Restarted(c).g.nodes;
  }

  /**
   The second slot holds the result of the run of the first, of another generation, while its own
   run is still unfinished.
   */
  lemma LateSlotAliases(c: Compute, c': Compute, v: Value) returns (ws: seq<World>)
    ensures IsExecution(ws, LateSlot(c, c', v))
    ensures
      var w := ws[6];
      && IsComputed(w.g.nodes, 0) && w.g.nodes[0].compute == c'
      && w.g.nodes[0].state == Resolved && w.g.nodes[0].cached == Some(v)
      && |w.tasks| == 2 && w.tasks[0].done && w.tasks[0].gen == 0 && Generation(w.g, 0) == 1
      && !w.tasks[1].done && w.tasks[1].gen == 1 && w.g.nodes[0].notifier == Some(1)
  {
    FirstStarts(c);
    FirstIsDisposed(c);
    SecondStarts(c');
    FirstCompletes(c', v);
    ws := [START, Made(c), Started(c), Vacated(), Remade(c'), Restarted(c'), Aliased(c', v)];
  }
}
