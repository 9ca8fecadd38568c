/** Three schedules, one for each way in which a live node comes to name a retired id. */
module SymmetryBreaks {
  import opened Prelude
  import opened Graph
  import opened Edges
  import opened Lifecycle

  function Arena(nodes: Nodes, generations: seq<nat>, freeIds: seq<Id>): Graph {
    Graph(nodes, generations, |generations|, freeIds, 0, {}, [], {})
  }

  const BOTH_ISSUED := [Handle(0, 0), Handle(1, 0)]

  /** One more step of an execution. */
  lemma Extend(ws: seq<World>, acts: seq<Action>, a: Action, w: World) returns (ws': seq<World>)
    requires IsExecution(ws, acts) && Enabled(ws[|acts|], a) && Next(ws[|acts|], a) == w
    ensures IsExecution(ws', acts + [a]) && |ws'| == |acts| + 2 && ws'[|acts| + 1] == w
  {
    ws' := ws + [w];
    forall i | 0 <= i < |acts + [a]|
      ensures Enabled(ws'[i], (acts + [a])[i]) && ws'[i + 1] == Next(ws'[i], (acts + [a])[i])
    {
      if i < |acts| {
        assert ws'[i] == ws[i] && ws'[i + 1] == ws[i + 1];
      }
    }
  }

  /** A source at id 0 and a node `n` at id 1. */
  function Pair(v: Value, n: Node): World {
    World(Arena(map[0 := FreshSource(v), 1 := n], [0, 0], []), [], [], BOTH_ISSUED)
  }

  function PairActions(v: Value, n: Node): seq<Action> {
    [Make(FreshSource(v)), Make(n)]
  }

  lemma PairMakes(v: Value, n: Node) returns (ws: seq<World>)
    requires Dependents(n) == [] && Dependencies(n) == [] && (n.Computed? ==> n.state == Empty)
    ensures IsExecution(ws, PairActions(v, n)) && ws[2] == Pair(v, n)
  {
    var first := World(Arena(map[0 := FreshSource(v)], [0], []), [], [], [Handle(0, 0)]);
    assert Next(START, Make(FreshSource(v))).g == first.g;
    assert Next(first, Make(n)).g == Pair(v, n).g;
    ws := [START, first, Pair(v, n)];
  }

  function InFlight(c: Compute, reads_: seq<Id>): Node {
    Computed(Computing(0), None, 0, c, reads_, [], Some(0))
  }

  // ---- a completion between the two sections of a disposal ----------------------------

  /** A compute reads a source, the source is disposed, and the compute completes before the teardown walk. */
  function Window(v: Value, c: Compute, u: Value): seq<Action> {
    WindowStart(v, c) + [Dispose(Handle(0, 0), SourceKind)] + [FinishSlot(0, [0], u)]
  }

  function WindowStart(v: Value, c: Compute): seq<Action> {
    PairActions(v, FreshComputed(c)) + [SpawnSlot(1)] + [Touch(0, 0)]
  }

  function Spawned(v: Value, c: Compute): World {
    Pair(v, FreshComputed(c)).(g := Arena(map[0 := FreshSource(v), 1 := InFlight(c, [])], [0, 0], []),
                               tasks := [Task(1, 0, 0, false, {}, false)])
  }

  function Tracking(v: Value, c: Compute): World {
    Spawned(v, c).(g := Arena(map[0 := Source(v, [1]), 1 := InFlight(c, [0])], [0, 0], []),
                   tasks := [Task(1, 0, 0, false, {0}, false)])
  }

  function Between(v: Value, c: Compute): World {
    Tracking(v, c).(g := Arena(map[1 := InFlight(c, [])], [1, 0], [0]), teardowns := [[1]])
  }

  function Dangling(v: Value, c: Compute, u: Value): World {
    Between(v, c).(g := Arena(map[1 := Computed(Resolved, Some(u), 0, c, [0], [], Some(0))], [1, 0], [0]),
                   tasks := [Task(1, 0, 0, false, {0}, true)])
  }

  lemma WindowReads(v: Value, c: Compute)
    ensures Next(Pair(v, FreshComputed(c)), SpawnSlot(1)) == Spawned(v, c)
    ensures Next(Spawned(v, c), Touch(0, 0)) == Tracking(v, c)
  {
    assert EdgeInsert([], 1 as Id) == [1] && EdgeInsert([], 0 as Id) == [0] && {} + {0} == {0};
    assert Next(Spawned(v, c), Touch(0, 0)).g.nodes == Tracking(v, c).g.nodes;
  }

  lemma WindowOpens(v: Value, c: Compute) returns (ws: seq<World>)
    ensures IsExecution(ws, WindowStart(v, c)) && ws[4] == Tracking(v, c)
  {
    ws := PairMakes(v, FreshComputed(c));
    WindowReads(v, c);
    ws := Extend(ws, PairActions(v, FreshComputed(c)), SpawnSlot(1), Spawned(v, c));
    ws := Extend(ws, PairActions(v, FreshComputed(c)) + [SpawnSlot(1)], Touch(0, 0), Tracking(v, c));
  }

  lemma WindowDisposes(v: Value, c: Compute)
    ensures Next(Tracking(v, c), Dispose(Handle(0, 0), SourceKind)) == Between(v, c)
  {
    var nodes := Tracking(v, c).g.nodes;
    DropForwardOne(nodes - {0}, 1, 0);
    assert DisposeNode(Tracking(v, c).g, Handle(0, 0), SourceKind).0 == Between(v, c).g;
  }

  lemma DropForwardOne(nodes: Nodes, x: Id, id: Id)
    requires x in nodes
    ensures DropForward(nodes, [x], id) == nodes[x := RemoveDependency(nodes[x], id)]
  {
    assert [x][1..] == [];
  }

  lemma WindowHalfway(v: Value, c: Compute) returns (ws: seq<World>)
    ensures IsExecution(ws, WindowStart(v, c) + [Dispose(Handle(0, 0), SourceKind)]) && ws[5] == Between(v, c)
  {
    ws := WindowOpens(v, c);
    WindowDisposes(v, c);
    var acts := WindowStart(v, c);
    assert |acts| == 4;
    ws := Extend(ws, acts, Dispose(Handle(0, 0), SourceKind), Between(v, c));
  }

  lemma WindowCompletes(v: Value, c: Compute, u: Value)
    ensures Enabled(Between(v, c), FinishSlot(0, [0], u))
    ensures Next(Between(v, c), FinishSlot(0, [0], u)) == Dangling(v, c, u)
  {
    assert NoDup([0]) && Elems([0]) == {0};
    assert UpdateDependencies(Between(v, c).g.nodes, 1, [0]) == map[1 := InFlight(c, [0])];
  }

  /** The slot that completed inside the window names the retired id: no run read through a stale handle. */
  lemma WindowBreaksSymmetry(v: Value, c: Compute, u: Value) returns (ws: seq<World>)
    ensures IsExecution(ws, Window(v, c, u))
    ensures !Symmetric(ws[6].g.nodes)
    ensures 0 !in ws[6].g.nodes && IsComputed(ws[6].g.nodes, 1) && ws[6].g.nodes[1].dependencies == [0]
  {
    ws := WindowHalfway(v, c);
    WindowCompletes(v, c, u);
    ws := Extend(ws, WindowStart(v, c) + [Dispose(Handle(0, 0), SourceKind)], FinishSlot(0, [0], u), Dangling(v, c, u));
    OneSided(ws[6].g.nodes, 0, 1);
  }

  // ---- a read through a stale handle ----------------------------------------------------

  /** A source is disposed, with nothing else going on; then a compute runs and reads it through its old handle. */
  function StaleRead(v: Value, c: Compute): seq<Action> {
    StaleReadStart(v, c) + [SpawnSlot(1)] + [Touch(0, 0)]
  }

  function StaleReadStart(v: Value, c: Compute): seq<Action> {
    PairActions(v, FreshComputed(c)) + [Dispose(Handle(0, 0), SourceKind)] + [Teardown(0)]
  }

  function Orphan(c: Compute, teardowns: seq<seq<Id>>): World {
    World(Arena(map[1 := FreshComputed(c)], [1, 0], [0]), [], teardowns, BOTH_ISSUED)
  }

  function OrphanRuns(c: Compute, reads_: seq<Id>, tracked: set<Id>): World {
    World(Arena(map[1 := InFlight(c, reads_)], [1, 0], [0]), [Task(1, 0, 0, false, tracked, false)], [], BOTH_ISSUED)
  }

  lemma StaleReadDisposes(v: Value, c: Compute)
    ensures Next(Pair(v, FreshComputed(c)), Dispose(Handle(0, 0), SourceKind)) == Orphan(c, [[]])
    ensures Next(Orphan(c, [[]]), Teardown(0)) == Orphan(c, [])
  {
    assert DisposeNode(Pair(v, FreshComputed(c)).g, Handle(0, 0), SourceKind).0 == Orphan(c, [[]]).g;
    ConeIsLeast(Orphan(c, [[]]).g.nodes, {}, {});
    assert Walk(Orphan(c, [[]]).g.nodes, {}) == Orphan(c, [[]]).g.nodes;
  }

  lemma StaleReadOpens(v: Value, c: Compute) returns (ws: seq<World>)
    ensures IsExecution(ws, StaleReadStart(v, c)) && ws[4] == Orphan(c, [])
  {
    ws := PairMakes(v, FreshComputed(c));
    StaleReadDisposes(v, c);
    var acts := PairActions(v, FreshComputed(c));
    ws := Extend(ws, acts, Dispose(Handle(0, 0), SourceKind), Orphan(c, [[]]));
    ws := Extend(ws, acts + [Dispose(Handle(0, 0), SourceKind)], Teardown(0), Orphan(c, []));
  }

  lemma StaleReadRegisters(c: Compute)
    ensures Next(Orphan(c, []), SpawnSlot(1)) == OrphanRuns(c, [], {})
    ensures Next(OrphanRuns(c, [], {}), Touch(0, 0)) == OrphanRuns(c, [0], {0})
  {
    assert EdgeInsert([], 0 as Id) == [0] && {} + {0} == {0};
    assert Next(OrphanRuns(c, [], {}), Touch(0, 0)).g.nodes == OrphanRuns(c, [0], {0}).g.nodes;
  }

  /** The forward edge names the retired id, and no completion was involved. */
  lemma StaleReadBreaksSymmetry(v: Value, c: Compute) returns (ws: seq<World>)
    ensures IsExecution(ws, StaleRead(v, c))
    ensures !Symmetric(ws[6].g.nodes) && ws[6].teardowns == []
    ensures 0 !in ws[6].g.nodes && IsComputed(ws[6].g.nodes, 1) && ws[6].g.nodes[1].dependencies == [0]
  {
    ws := StaleReadOpens(v, c);
    StaleReadRegisters(c);
    ws := Extend(ws, StaleReadStart(v, c), SpawnSlot(1), OrphanRuns(c, [], {}));
    ws := Extend(ws, StaleReadStart(v, c) + [SpawnSlot(1)], Touch(0, 0), OrphanRuns(c, [0], {0}));
    OneSided(ws[6].g.nodes, 0, 1);
  }

  // ---- an effect run captured at a vacant id ---------------------------------------------

  /** An effect is disposed after its body was fetched; its run is captured at the vacant id and reads a live source. */
  function VacantCapture(v: Value, b: nat): seq<Action> {
    PairActions(v, FreshEffect(b)) + [Dispose(Handle(1, 0), EffectKind)] + [SpawnEffect(1)] + [Touch(0, 0)]
  }

  function Alone(v: Value, readers: seq<Id>, tasks: seq<Task>): World {
    World(Arena(map[0 := Source(v, readers)], [0, 1], [1]), tasks, [], BOTH_ISSUED)
  }

  lemma VacantCaptureSteps(v: Value, b: nat)
    ensures Next(Pair(v, FreshEffect(b)), Dispose(Handle(1, 0), EffectKind)) == Alone(v, [], [])
    ensures Next(Alone(v, [], []), SpawnEffect(1)) == Alone(v, [], [Task(1, 1, 0, true, {}, false)])
    ensures Next(Alone(v, [], [Task(1, 1, 0, true, {}, false)]), Touch(0, 0)) ==
            Alone(v, [1], [Task(1, 1, 0, true, {0}, false)])
  {
    assert DisposeEffect(Pair(v, FreshEffect(b)).g, Handle(1, 0)).0 == Alone(v, [], []).g;
    assert EdgeInsert([], 1 as Id) == [1] && {} + {0} == {0};
  }

  /** The reverse edge of a live source names the retired id; every read was of a live node and nothing completed. */
  lemma VacantCaptureBreaksSymmetry(v: Value, b: nat) returns (ws: seq<World>)
    ensures IsExecution(ws, VacantCapture(v, b))
    ensures !Symmetric(ws[5].g.nodes) && ws[5].g.nodes == map[0 := Source(v, [1])]
  {
    ws := PairMakes(v, FreshEffect(b));
    VacantCaptureSteps(v, b);
    var acts := PairActions(v, FreshEffect(b));
    ws := Extend(ws, acts, Dispose(Handle(1, 0), EffectKind), Alone(v, [], []));
    acts := acts + [Dispose(Handle(1, 0), EffectKind)];
    ws := Extend(ws, acts, SpawnEffect(1), Alone(v, [], [Task(1, 1, 0, true, {}, false)]));
    ws := Extend(ws, acts + [SpawnEffect(1)], Touch(0, 0), Alone(v, [1], [Task(1, 1, 0, true, {0}, false)]));
    OneSided(ws[5].g.nodes, 0, 1);
  }
}
