/**
 A batch of writes, nested to any depth, against the same writes made one by one: the same
 source values and the same resolved slots, but one walk instead of many.
 */
module Batch {
  import opened Prelude
  import opened Graph

  datatype Prog = SetTo(cell: Id, value: Value) | Block(body: seq<Prog>)

  /** Every write goes to a source of the graph; a write elsewhere panics. */
  ghost predicate Fits(nodes: Nodes, p: Prog) {
    match p
    case SetTo(s, _) => IsSource(nodes, s)
    case Block(body) => forall i :: 0 <= i < |body| ==> Fits(nodes, body[i])
  }

  ghost predicate AllFit(nodes: Nodes, ps: seq<Prog>) {
    forall i :: 0 <= i < |ps| ==> Fits(nodes, ps[i])
  }

  /** The readers of a set of cells: the roots one batch walk starts from. */
  ghost function ReadersOf(nodes: Nodes, cells: set<Id>): set<Id> {
    set s, d | s in cells && s in nodes && d in Dependents(nodes[s]) :: d
  }

  /** What no program can change: nodes, kinds, reverse edges. */
  lemma FitsStable(nodes: Nodes, nodes': Nodes, p: Prog)
    requires SameShape(nodes, nodes') && Fits(nodes, p)
    ensures Fits(nodes', p)
  {
    if p.SetTo? {
      assert KindOf(nodes'[p.cell]) == KindOf(nodes[p.cell]);
    }
  }

  ghost function Settle(g: Graph, roots: set<Id>): (g': Graph)
    ensures SameShape(g.nodes, g'.nodes) && g' == g.(nodes := g'.nodes)
  {
    g.(nodes := Walk(g.nodes, roots))
  }

  /** `set` outside any other activity: write, then walk what is due. */
  ghost function ExecSet(g: Graph, s: Id, v: Value): (g': Graph)
    requires IsSource(g.nodes, s)
    ensures SameShape(g.nodes, g'.nodes) && g'.batchDepth == g.batchDepth
  {
    var (g1, due) := WriteCell(g, s, v);
    if due.None? then g1 else Settle(g1, Elems(due.value))
  }

  ghost function Exec(g: Graph, p: Prog): (g': Graph)
    requires Fits(g.nodes, p)
    ensures SameShape(g.nodes, g'.nodes) && g'.batchDepth == g.batchDepth
    decreases p, 1
  {
    match p
    case SetTo(s, v) => ExecSet(g, s, v)
    case Block(body) =>
      var g1 := ExecAll(EnterBatch(g), body);
      var (g2, cells) := ExitBatch(g1);
      if cells.None? then g2 else Settle(g2, ReadersOf(g2.nodes, cells.value))
  }

  ghost function ExecAll(g: Graph, ps: seq<Prog>): (g': Graph)
    requires AllFit(g.nodes, ps)
    ensures SameShape(g.nodes, g'.nodes) && g'.batchDepth == g.batchDepth
    decreases ps, 0
  {
    if ps == [] then g
    else
      var g1 := Exec(g, ps[0]);
      assert AllFit(g1.nodes, ps[1..]) by {
        forall i | 0 <= i < |ps[1..]| ensures Fits(g1.nodes, ps[1..][i]) {
          FitsStable(g.nodes, g1.nodes, ps[i + 1]);
        }
      }
      ExecAll(g1, ps[1..])
  }

  /** The writes of a program in order, without its batches. */
  function Flatten(p: Prog): seq<Prog>
    decreases p, 1
  {
    match p
    case SetTo(_, _) => [p]
    case Block(body) => FlattenAll(body)
  }

  function FlattenAll(ps: seq<Prog>): seq<Prog>
    decreases ps, 0
  {
    if ps == [] then [] else Flatten(ps[0]) + FlattenAll(ps[1..])
  }

  ghost predicate Flat(ps: seq<Prog>) {
    forall i :: 0 <= i < |ps| ==> ps[i].SetTo?
  }

  lemma {:induction false} FlattenFits(nodes: Nodes, ps: seq<Prog>)
    requires AllFit(nodes, ps)
    ensures AllFit(nodes, FlattenAll(ps)) && Flat(FlattenAll(ps))
    decreases ps
  {
    if ps != [] {
      assert Fits(nodes, ps[0]);
      if ps[0].Block? {
        FlattenFits(nodes, ps[0].body);
      }
      FlattenFits(nodes, ps[1..]);
    }
  }

  lemma {:induction false} ExecConcat(g: Graph, ps: seq<Prog>, qs: seq<Prog>)
    requires AllFit(g.nodes, ps) && AllFit(g.nodes, ps + qs)
    ensures AllFit(ExecAll(g, ps).nodes, qs)
    ensures ExecAll(g, ps + qs) == ExecAll(ExecAll(g, ps), qs)
    decreases |ps|
  {
    forall i | 0 <= i < |qs| ensures Fits(g.nodes, qs[i]) {
      assert (ps + qs)[|ps| + i] == qs[i];
    }
    forall i | 0 <= i < |qs| ensures Fits(ExecAll(g, ps).nodes, qs[i]) {
      FitsStable(g.nodes, ExecAll(g, ps).nodes, qs[i]);
    }
    if ps == [] {
      assert ps + qs == qs;
    } else {
      var g1 := Exec(g, ps[0]);
      assert (ps + qs)[1..] == ps[1..] + qs;
      forall i | 0 <= i < |ps[1..] + qs| ensures Fits(g1.nodes, (ps[1..] + qs)[i]) {
        FitsStable(g.nodes, g1.nodes, (ps + qs)[i + 1]);
      }
      forall i | 0 <= i < |ps[1..]| ensures Fits(g1.nodes, ps[1..][i]) {
        FitsStable(g.nodes, g1.nodes, ps[i + 1]);
      }
      ExecConcat(g1, ps[1..], qs);
    }
  }

  /** Inside a batch, inner batches are transparent. */
  lemma {:induction false} NestingIsTransparent(g: Graph, ps: seq<Prog>)
    requires AllFit(g.nodes, ps) && g.batchDepth > 0
    ensures AllFit(g.nodes, FlattenAll(ps)) && ExecAll(g, ps) == ExecAll(g, FlattenAll(ps))
    decreases ps
  {
    FlattenFits(g.nodes, ps);
    if ps != [] {
      var p := ps[0];
      assert Fits(g.nodes, p);
      var g1 := Exec(g, p);
      forall i | 0 <= i < |ps[1..]| ensures Fits(g1.nodes, ps[1..][i]) {
        FitsStable(g.nodes, g1.nodes, ps[i + 1]);
      }
      NestingIsTransparent(g1, ps[1..]);
      FlattenFits(g.nodes, [p]);
      assert FlattenAll([p]) == Flatten(p) + FlattenAll([]) == Flatten(p);
      assert g1 == ExecAll(g, Flatten(p)) by {
        if p.Block? {
          NestingIsTransparent(EnterBatch(g), p.body);
          DepthIsIrrelevant(g, FlattenAll(p.body));
        } else {
          assert Flatten(p)[1..] == [];
        }
      }
      ExecConcat(g, Flatten(p), FlattenAll(ps[1..]));
    }
  }

  /** Writes inside a batch do not look at how deep they are. */
  lemma {:induction false} DepthIsIrrelevant(g: Graph, ps: seq<Prog>)
    requires AllFit(g.nodes, ps) && Flat(ps) && g.batchDepth > 0
    ensures ExecAll(EnterBatch(g), ps) == EnterBatch(ExecAll(g, ps))
    decreases |ps|
  {
    if ps != [] {
      var g1 := Exec(g, ps[0]);
      assert Exec(EnterBatch(g), ps[0]) == EnterBatch(g1);
      forall i | 0 <= i < |ps[1..]| ensures Fits(g1.nodes, ps[1..][i]) {
        FitsStable(g.nodes, g1.nodes, ps[i + 1]);
      }
      DepthIsIrrelevant(g1, ps[1..]);
    }
  }

  /**
   `b` has collected the writes that `q` has already propagated: same sources, and `q`
   differs from `b` exactly by having emptied the cone of the batched cells.
   */
  ghost predicate Lags(b: Graph, q: Graph) {
    && b.batchDepth == 1 && q.batchDepth == 0
    && SameShape(b.nodes, q.nodes)
    && (forall x :: x in b.nodes ==>
        LagsAt(b.nodes[x], q.nodes[x], x in Cone(b.nodes, ReadersOf(b.nodes, b.batchedCells))))
  }

  ghost predicate LagsAt(n: Node, n': Node, hit: bool) {
    if hit && n.Computed? then
      && n'.Computed?
      && n'.revision > n.revision
      && n' == n.(state := Empty, notifier := None, revision := n'.revision)
    else n' == n
  }

  lemma SetLags(b: Graph, q: Graph, s: Id, v: Value)
    requires Lags(b, q) && IsSource(b.nodes, s)
    ensures IsSource(q.nodes, s) && Lags(ExecSet(b, s, v), ExecSet(q, s, v))
  {
    assert LagsAt(b.nodes[s], q.nodes[s], s in Cone(b.nodes, ReadersOf(b.nodes, b.batchedCells)));
    var b', q' := ExecSet(b, s, v), ExecSet(q, s, v);
    if b.nodes[s].value != v {
      var roots := Elems(b.nodes[s].dependents);
      var q1 := WriteCell(q, s, v).0;
      ConeSame(b.nodes, b'.nodes, ReadersOf(b.nodes, b.batchedCells));
      ConeSame(b.nodes, b'.nodes, roots);
      ConeSame(b.nodes, q1.nodes, roots);
      assert ReadersOf(b'.nodes, b'.batchedCells) == ReadersOf(b.nodes, b.batchedCells) + roots;
      ConeUnion(b'.nodes, ReadersOf(b.nodes, b.batchedCells), roots);
      ConeIsClosed(b.nodes, roots);
      forall x | x in b'.nodes
        ensures LagsAt(b'.nodes[x], q'.nodes[x], x in Cone(b'.nodes, ReadersOf(b'.nodes, b'.batchedCells)))
      {
        assert LagsAt(b.nodes[x], q.nodes[x], x in Cone(b.nodes, ReadersOf(b.nodes, b.batchedCells)));
      }
    }
  }

  lemma {:induction false} SetsLag(b: Graph, q: Graph, ps: seq<Prog>)
    requires Lags(b, q) && Flat(ps) && AllFit(b.nodes, ps) && AllFit(q.nodes, ps)
    ensures Lags(ExecAll(b, ps), ExecAll(q, ps))
    decreases |ps|
  {
    if ps != [] {
      assert Fits(b.nodes, ps[0]);
      SetLags(b, q, ps[0].cell, ps[0].value);
      var b1, q1 := Exec(b, ps[0]), Exec(q, ps[0]);
      forall i | 0 <= i < |ps[1..]| ensures Fits(b1.nodes, ps[1..][i]) && Fits(q1.nodes, ps[1..][i]) {
        FitsStable(b.nodes, b1.nodes, ps[i + 1]);
        FitsStable(q.nodes, q1.nodes, ps[i + 1]);
      }
      SetsLag(b1, q1, ps[1..]);
    }
  }

  /** Inside a batch a slot never changes; only source values and the batched set do. */
  lemma {:induction false} BatchTouchesSourcesOnly(g: Graph, ps: seq<Prog>, d: Id)
    requires AllFit(g.nodes, ps) && Flat(ps) && g.batchDepth > 0 && d in g.nodes && !g.nodes[d].Source?
    ensures d in ExecAll(g, ps).nodes && ExecAll(g, ps).nodes[d] == g.nodes[d]
    decreases |ps|
  {
    if ps != [] {
      assert Fits(g.nodes, ps[0]);
      var g1 := Exec(g, ps[0]);
      forall i | 0 <= i < |ps[1..]| ensures Fits(g1.nodes, ps[1..][i]) {
        FitsStable(g.nodes, g1.nodes, ps[i + 1]);
      }
      BatchTouchesSourcesOnly(g1, ps[1..], d);
    }
  }

  /** What a cell holding `v` holds after the writes `ps`. */
  function FinalValue(v: Value, ps: seq<Prog>, s: Id): Value {
    if ps == [] then v
    else FinalValue(if ps[0].SetTo? && ps[0].cell == s then ps[0].value else v, ps[1..], s)
  }

  /** Whether some write of `ps` finds a cell that held `v` at first with another value. */
  predicate IsChangedBy(v: Value, ps: seq<Prog>, s: Id) {
    ps != []
    && if ps[0].SetTo? && ps[0].cell == s then ps[0].value != v || IsChangedBy(ps[0].value, ps[1..], s)
       else IsChangedBy(v, ps[1..], s)
  }

  ghost function ChangedBy(nodes: Nodes, ps: seq<Prog>): set<Id> {
    set s | s in nodes && nodes[s].Source? && IsChangedBy(nodes[s].value, ps, s)
  }

  ghost function Changed(nodes: Nodes, ps: seq<Prog>): set<Id> {
    ChangedBy(nodes, FlattenAll(ps))
  }

  lemma {:induction false} BatchTracks(g: Graph, ps: seq<Prog>, s: Id)
    requires AllFit(g.nodes, ps) && Flat(ps) && g.batchDepth > 0 && IsSource(g.nodes, s)
    ensures IsSource(ExecAll(g, ps).nodes, s)
    ensures ExecAll(g, ps).nodes[s].value == FinalValue(g.nodes[s].value, ps, s)
    ensures s in ExecAll(g, ps).batchedCells <==> s in g.batchedCells || IsChangedBy(g.nodes[s].value, ps, s)
    decreases |ps|
  {
    if ps != [] {
      assert Fits(g.nodes, ps[0]);
      var g1 := Exec(g, ps[0]);
      forall i | 0 <= i < |ps[1..]| ensures Fits(g1.nodes, ps[1..][i]) {
        FitsStable(g.nodes, g1.nodes, ps[i + 1]);
      }
      BatchTracks(g1, ps[1..], s);
    }
  }

  lemma {:induction false} OnlySourcesBatched(g: Graph, ps: seq<Prog>)
    requires AllFit(g.nodes, ps) && Flat(ps) && g.batchDepth > 0
    requires forall s :: s in g.batchedCells ==> IsSource(g.nodes, s)
    ensures forall s :: s in ExecAll(g, ps).batchedCells ==> IsSource(g.nodes, s)
    decreases |ps|
  {
    if ps != [] {
      assert Fits(g.nodes, ps[0]);
      var g1 := Exec(g, ps[0]);
      forall i | 0 <= i < |ps[1..]| ensures Fits(g1.nodes, ps[1..][i]) {
        FitsStable(g.nodes, g1.nodes, ps[i + 1]);
      }
      assert forall s :: IsSource(g1.nodes, s) ==> IsSource(g.nodes, s);
      OnlySourcesBatched(g1, ps[1..]);
    }
  }

  lemma BatchedAreChanged(g: Graph, ps: seq<Prog>)
    requires AllFit(g.nodes, ps) && AllFit(g.nodes, FlattenAll(ps)) && g.batchDepth == 0 && g.batchedCells == {}
    ensures ExecAll(EnterBatch(g), FlattenAll(ps)).batchedCells == Changed(g.nodes, ps)
  {
    FlattenFits(g.nodes, ps);
    var g0, flat := EnterBatch(g), FlattenAll(ps);
    OnlySourcesBatched(g0, flat);
    forall s | IsSource(g.nodes, s) ensures s in ExecAll(g0, flat).batchedCells <==> s in Changed(g.nodes, ps) {
      BatchTracks(g0, flat, s);
    }
  }

  /**
   Any nested batch of writes ends like the same writes made one at a time: equal sources,
   equal slot states and cached values, equal edges. Its one walk advances the revision of
   each slot in the cone of the changed cells exactly once and of no other slot.
   */
  lemma BatchRefinesSequence(g: Graph, ps: seq<Prog>, x: Id)
    requires AllFit(g.nodes, ps) && g.batchDepth == 0 && g.batchedCells == {} && x in g.nodes
    ensures AllFit(g.nodes, FlattenAll(ps))
    ensures
      var b, q := Exec(g, Block(ps)), ExecAll(g, FlattenAll(ps));
      && b.batchDepth == 0 && b.batchedCells == {}
      && x in b.nodes && x in q.nodes
      && (g.nodes[x].Source? ==>
            && b.nodes[x] == q.nodes[x]
            && b.nodes[x] == g.nodes[x].(value := FinalValue(g.nodes[x].value, FlattenAll(ps), x)))
      && (g.nodes[x].Effect? ==> b.nodes[x] == q.nodes[x] == g.nodes[x])
      && (g.nodes[x].Computed? ==>
            && b.nodes[x].Computed? && q.nodes[x].Computed?
            && b.nodes[x] == q.nodes[x].(revision := b.nodes[x].revision)
            && b.nodes[x].revision <= q.nodes[x].revision
            && b.nodes[x].revision == g.nodes[x].revision
                 + if x in Cone(g.nodes, ReadersOf(g.nodes, Changed(g.nodes, ps))) then 1 else 0)
  {
    FlattenFits(g.nodes, ps);
    var flat := FlattenAll(ps);
    var g0 := EnterBatch(g);
    NestingIsTransparent(g0, ps);
    assert ReadersOf(g0.nodes, {}) == {};
    ConeIsLeast(g0.nodes, {}, {});
    assert Lags(g0, g);
    SetsLag(g0, g, flat);
    var b1, q := ExecAll(g0, flat), ExecAll(g, flat);
    var cells := b1.batchedCells;
    ConeSame(g.nodes, b1.nodes, ReadersOf(g.nodes, cells));
    assert ReadersOf(g.nodes, cells) == ReadersOf(b1.nodes, cells);
    var b := Exec(g, Block(ps));
    assert b.nodes == Walk(b1.nodes, ReadersOf(b1.nodes, cells));
    assert LagsAt(b1.nodes[x], q.nodes[x], x in Cone(b1.nodes, ReadersOf(b1.nodes, cells)));
    BatchedAreChanged(g, ps);
    if g.nodes[x].Source? {
      BatchTracks(g0, flat, x);
    } else {
      BatchTouchesSourcesOnly(g0, flat, x);
    }
    ConeIsClosed(b1.nodes, ReadersOf(b1.nodes, cells));
  }

  // ---- the effects a walk collects -------------------------------------------

  /** However often a walk met them, the affected effects end up queued exactly once each. */
  lemma {:induction false} AffectedQueuedOnce(g: Graph, effects: seq<Id>)
    requires QueueOk(g)
    ensures QueueOk(ScheduleAll(g, effects)) && g.pending <= ScheduleAll(g, effects).pending
    ensures Elems(ScheduleAll(g, effects).pending) == Elems(g.pending) + Elems(effects)
    ensures ScheduleAll(g, effects).nodes.Keys == g.nodes.Keys
    ensures forall e :: e in effects && IsEffect(g.nodes, e) ==>
              IsEffect(ScheduleAll(g, effects).nodes, e) && ScheduleAll(g, effects).nodes[e].forceRun
    ensures forall e :: IsEffect(g.nodes, e) && g.nodes[e].forceRun ==>
              IsEffect(ScheduleAll(g, effects).nodes, e) && ScheduleAll(g, effects).nodes[e].forceRun
    decreases |effects|
  {
    if effects != [] {
      var g1 := Schedule(g, effects[0]);
      assert QueueOk(g1) && Elems(g1.pending) == Elems(g.pending) + {effects[0]};
      assert Elems(effects) == {effects[0]} + Elems(effects[1..]);
      AffectedQueuedOnce(g1, effects[1..]);
      assert IsEffect(g.nodes, effects[0]) ==> IsEffect(g1.nodes, effects[0]) && g1.nodes[effects[0]].forceRun;
    }
  }

  /** The effects that the walks of the writes `ps`, made one by one, collect between them. */
  ghost function Stirred(g: Graph, ps: seq<Prog>): set<Id>
    requires AllFit(g.nodes, ps) && Flat(ps)
    decreases |ps|
  {
    if ps == [] then {}
    else
      assert Fits(g.nodes, ps[0]);
      var n, g1 := g.nodes[ps[0].cell], Exec(g, ps[0]);
      assert AllFit(g1.nodes, ps[1..]) by {
        forall i | 0 <= i < |ps[1..]| ensures Fits(g1.nodes, ps[1..][i]) {
          FitsStable(g.nodes, g1.nodes, ps[i + 1]);
        }
      }
      (if n.value == ps[0].value then {} else AffectedEffects(g.nodes, Elems(n.dependents))) + Stirred(g1, ps[1..])
  }

  lemma AffectedUnion(nodes: Nodes, a: set<Id>, b: set<Id>)
    ensures AffectedEffects(nodes, a + b) == AffectedEffects(nodes, a) + AffectedEffects(nodes, b)
  {
    ConeUnion(nodes, a, b);
  }

  lemma AffectedSame(nodes: Nodes, nodes': Nodes, roots: set<Id>)
    requires SameShape(nodes, nodes')
    ensures AffectedEffects(nodes, roots) == AffectedEffects(nodes', roots)
  {
    ConeSame(nodes, nodes', roots);
    ConeIsClosed(nodes, roots);
    forall e | e in nodes ensures e in AffectedEffects(nodes, roots) <==> e in AffectedEffects(nodes', roots) {
      assert KindOf(nodes'[e]) == KindOf(nodes[e]);
    }
  }

  /** The cells that change are the first write's, if it changes one, and those of the rest. */
  lemma ChangedSplits(g: Graph, p: Prog, ps: seq<Prog>)
    requires Fits(g.nodes, p) && p.SetTo? && g.batchDepth == 0 && ps != [] && ps[0] == p
    ensures ChangedBy(g.nodes, ps) ==
            (if g.nodes[p.cell].value == p.value then {} else {p.cell}) + ChangedBy(Exec(g, p).nodes, ps[1..])
  {
    var g1 := Exec(g, p);
    forall s ensures s in g.nodes && g.nodes[s].Source? ==>
              && s in g1.nodes && g1.nodes[s].Source?
              && g1.nodes[s].value == if s == p.cell then p.value else g.nodes[s].value
    {
    }
    forall s | s in g1.nodes && g1.nodes[s].Source? ensures s in g.nodes && g.nodes[s].Source? {
      assert KindOf(g.nodes[s]) == KindOf(g1.nodes[s]);
    }
  }

  /** Writes one by one stir exactly the effects behind the cells they change. */
  lemma {:induction false} WritesStir(g: Graph, ps: seq<Prog>)
    requires AllFit(g.nodes, ps) && Flat(ps) && g.batchDepth == 0
    ensures Stirred(g, ps) == AffectedEffects(g.nodes, ReadersOf(g.nodes, ChangedBy(g.nodes, ps)))
    decreases |ps|
  {
    if ps == [] {
      assert ReadersOf(g.nodes, ChangedBy(g.nodes, ps)) == {};
      ConeIsLeast(g.nodes, {}, {});
    } else {
      assert Fits(g.nodes, ps[0]);
      var g1 := Exec(g, ps[0]);
      forall i | 0 <= i < |ps[1..]| ensures Fits(g1.nodes, ps[1..][i]) {
        FitsStable(g.nodes, g1.nodes, ps[i + 1]);
      }
      WritesStir(g1, ps[1..]);
      StirStep(g, g1, ps[0].cell, g.nodes[ps[0].cell].value != ps[0].value, ChangedBy(g1.nodes, ps[1..]));
      ChangedSplits(g, ps[0], ps);
    }
  }

  lemma StirStep(g: Graph, g1: Graph, s: Id, hit: bool, later: set<Id>)
    requires SameShape(g.nodes, g1.nodes) && IsSource(g.nodes, s)
    ensures
      (if hit then AffectedEffects(g.nodes, Elems(g.nodes[s].dependents)) else {})
      + AffectedEffects(g1.nodes, ReadersOf(g1.nodes, later)) ==
      AffectedEffects(g.nodes, ReadersOf(g.nodes, (if hit then {s} else {}) + later))
  {
    assert ReadersOf(g1.nodes, later) == ReadersOf(g.nodes, later);
    AffectedSame(g.nodes, g1.nodes, ReadersOf(g.nodes, later));
    if hit {
      assert ReadersOf(g.nodes, {s} + later) == Elems(g.nodes[s].dependents) + ReadersOf(g.nodes, later);
      AffectedUnion(g.nodes, Elems(g.nodes[s].dependents), ReadersOf(g.nodes, later));
    } else {
      assert {} + later == later;
    }
  }

  /** What the tail of an outermost batch walks from: the readers of the cells it has collected. */
  lemma BatchRoots(g: Graph, ps: seq<Prog>)
    requires AllFit(g.nodes, ps) && g.batchDepth == 0 && g.batchedCells == {}
    ensures
      var inside := ExecAll(EnterBatch(g), ps);
      && SameShape(g.nodes, inside.nodes) && inside.batchedCells == Changed(g.nodes, ps)
      && ReadersOf(inside.nodes, inside.batchedCells) == ReadersOf(g.nodes, Changed(g.nodes, ps))
      && Exec(g, Block(ps)) ==
         Settle(inside.(batchDepth := 0, batchedCells := {}), ReadersOf(inside.nodes, inside.batchedCells))
  {
    FlattenFits(g.nodes, ps);
    NestingIsTransparent(EnterBatch(g), ps);
    BatchedAreChanged(g, ps);
  }

  lemma {:induction false} ExecKeepsQueue(g: Graph, ps: seq<Prog>)
    requires AllFit(g.nodes, ps) && Flat(ps)
    ensures ExecAll(g, ps).pending == g.pending && ExecAll(g, ps).scheduled == g.scheduled
    decreases |ps|
  {
    if ps != [] {
      assert Fits(g.nodes, ps[0]);
      var g1 := Exec(g, ps[0]);
      forall i | 0 <= i < |ps[1..]| ensures Fits(g1.nodes, ps[1..][i]) {
        FitsStable(g.nodes, g1.nodes, ps[i + 1]);
      }
      ExecKeepsQueue(g1, ps[1..]);
    }
  }

  // ---- influence, along paths ------------------------------------------------

  /** A path of reverse edges from a cell, through slots, to its last node. */
  ghost predicate Path(nodes: Nodes, cells: set<Id>, path: seq<Id>) {
    && |path| >= 2 && path[0] in cells
    && (forall i :: 0 <= i < |path| - 1 ==> Edge(nodes, path[i], path[i + 1]))
    && (forall i :: 0 < i < |path| - 1 ==> IsComputed(nodes, path[i]))
  }

  ghost predicate Influences(nodes: Nodes, cells: set<Id>, x: Id) {
    exists path :: Path(nodes, cells, path) && path[|path| - 1] == x
  }

  lemma PathOn(nodes: Nodes, cells: set<Id>, path: seq<Id>, x: Id)
    requires Path(nodes, cells, path) && IsComputed(nodes, path[|path| - 1]) && Edge(nodes, path[|path| - 1], x)
    ensures Path(nodes, cells, path + [x])
  {
    var longer := path + [x];
    forall i | 0 <= i < |longer| - 1 ensures Edge(nodes, longer[i], longer[i + 1]) {
      assert i < |path| - 1 ==> Edge(nodes, path[i], path[i + 1]);
    }
  }

  lemma {:induction false} ReachIsPath(nodes: Nodes, cells: set<Id>, d: Id, n: nat) returns (path: seq<Id>)
    requires ReachesIn(nodes, ReadersOf(nodes, cells), d, n)
    ensures Path(nodes, cells, path) && path[|path| - 1] == d
    decreases n
  {
    if n == 0 {
      var s :| s in cells && s in nodes && d in Dependents(nodes[s]);
      path := [s, d];
    } else {
      var c :| ReachesIn(nodes, ReadersOf(nodes, cells), c, n - 1) && Edge(nodes, c, d);
      path := ReachIsPath(nodes, cells, c, n - 1);
      PathOn(nodes, cells, path, d);
      path := path + [d];
    }
  }

  lemma {:induction false} PathIsReach(nodes: Nodes, cells: set<Id>, path: seq<Id>, i: nat)
    requires Path(nodes, cells, path) && 0 < i < |path| && IsComputed(nodes, path[i])
    ensures path[i] in Cone(nodes, ReadersOf(nodes, cells))
    decreases i
  {
    assert Edge(nodes, path[i - 1], path[i]);
    if i == 1 {
      ConeRoot(nodes, ReadersOf(nodes, cells), path[1]);
    } else {
      PathIsReach(nodes, cells, path, i - 1);
      ConeStep(nodes, ReadersOf(nodes, cells), path[i - 1], path[i]);
    }
  }

  /** A slot is in the cone of a set of cells, and an effect is affected by them, exactly when a path leads there. */
  lemma InfluenceIsPath(nodes: Nodes, cells: set<Id>, x: Id)
    ensures x in Cone(nodes, ReadersOf(nodes, cells)) <==> IsComputed(nodes, x) && Influences(nodes, cells, x)
    ensures x in AffectedEffects(nodes, ReadersOf(nodes, cells)) <==> IsEffect(nodes, x) && Influences(nodes, cells, x)
  {
    var roots := ReadersOf(nodes, cells);
    ConeIsClosed(nodes, roots);
    if x in Cone(nodes, roots) {
      var n: nat :| ReachesIn(nodes, roots, x, n);
      var path := ReachIsPath(nodes, cells, x, n);
    }
    if x in AffectedEffects(nodes, roots) {
      AffectedHasPath(nodes, cells, x);
    }
    if Influences(nodes, cells, x) && (IsComputed(nodes, x) || IsEffect(nodes, x)) {
      var path :| Path(nodes, cells, path) && path[|path| - 1] == x;
      var m := |path| - 2;
      assert Edge(nodes, path[m], path[m + 1]);
      if IsComputed(nodes, x) {
        PathIsReach(nodes, cells, path, m + 1);
      } else if m > 0 {
        PathIsReach(nodes, cells, path, m);
      }
    }
  }

  lemma AffectedHasPath(nodes: Nodes, cells: set<Id>, e: Id)
    requires e in AffectedEffects(nodes, ReadersOf(nodes, cells))
    ensures Influences(nodes, cells, e)
  {
    var roots := ReadersOf(nodes, cells);
    ConeIsClosed(nodes, roots);
    if e in roots {
      var s :| s in cells && s in nodes && e in Dependents(nodes[s]);
      assert Path(nodes, cells, [s, e]) && [s, e][1] == e;
    } else {
      var c :| c in Cone(nodes, roots) && Edge(nodes, c, e);
      var n: nat :| ReachesIn(nodes, roots, c, n);
      var path := ReachIsPath(nodes, cells, c, n);
      PathOn(nodes, cells, path, e);
      assert (path + [e])[|path|] == e;
    }
  }

  /**
   The one walk of a batch, from the state its writes have left, collects the same effects as all
   the walks of its writes made one by one; scheduling them after it queues each exactly once,
   behind those queued before. They are the effects that a path leads to from a changed cell.
   */
  lemma BatchQueuesOnce(g: Graph, ps: seq<Prog>, effects: seq<Id>)
    requires AllFit(g.nodes, ps) && g.batchDepth == 0 && g.batchedCells == {} && QueueOk(g)
    requires
      var inside := ExecAll(EnterBatch(g), ps);
      Elems(effects) == AffectedEffects(inside.nodes, ReadersOf(inside.nodes, inside.batchedCells))
    ensures AllFit(g.nodes, FlattenAll(ps)) && Flat(FlattenAll(ps))
    ensures
      var after := ScheduleAll(Exec(g, Block(ps)), effects);
      && Elems(effects) == Stirred(g, FlattenAll(ps))
      && NoDup(after.pending) && Elems(after.pending) == after.scheduled
      && after.scheduled == g.scheduled + Stirred(g, FlattenAll(ps)) && g.pending <= after.pending
      && forall e :: e in effects <==> IsEffect(g.nodes, e) && Influences(g.nodes, Changed(g.nodes, ps), e)
  {
    var inside, flat := ExecAll(EnterBatch(g), ps), FlattenAll(ps);
    FlattenFits(g.nodes, ps);
    BatchRoots(g, ps);
    AffectedSame(g.nodes, inside.nodes, ReadersOf(g.nodes, Changed(g.nodes, ps)));
    WritesStir(g, flat);
    NestingIsTransparent(EnterBatch(g), ps);
    ExecKeepsQueue(EnterBatch(g), flat);
    AffectedQueuedOnce(Exec(g, Block(ps)), effects);
    forall e ensures e in effects <==> IsEffect(g.nodes, e) && Influences(g.nodes, Changed(g.nodes, ps), e) {
      InfluenceIsPath(g.nodes, Changed(g.nodes, ps), e);
      assert e in effects <==> e in Elems(effects);
    }
  }
}
