/**
 The converse of freshness: every execution can be continued, without another write, until a slot
 that has a value from scratch is resolved to it.
 */
module Progress {
  import opened Prelude
  import opened Graph
  import opened Reactor
  import opened ReactorInv
  import opened ReactorSteps
  import opened Freshness

  // ---- what a spawn does ------------------------------------------------------------

  /**
   A spawn on a slot that is not in flight puts it in flight at its revision, with exactly one new
   run, which has seen nothing and is the slot's notifier. Nothing else moves, and on a slot in
   flight nothing moves at all.
   */
  lemma SpawnStarts(ws: seq<World>, acts: seq<Action>, i: nat, d: Id)
    requires IsExecution(ws, acts) && i < |acts| && acts[i] == Spawn(d)
    ensures IsComputed(ws[i].g.nodes, d) && IsComputed(ws[i + 1].g.nodes, d)
    ensures ws[i].g.nodes[d].state.Computing? ==> ws[i + 1] == ws[i]
    ensures !ws[i].g.nodes[d].state.Computing? ==>
              var n, r, w' := ws[i].g.nodes[d], |ws[i].runs|, ws[i + 1];
              && w'.g.nodes[d].state == Computing(n.revision) && w'.g.nodes[d].notifier == Some(r)
              && w'.g.nodes[d].revision == n.revision && w'.g.nodes[d].cached == n.cached
              && |w'.runs| == r + 1 && w'.runs[..r] == ws[i].runs
              && w'.runs[r].node == d && w'.runs[r].rev == n.revision && w'.runs[r].seen == []
              && w'.runs[r].subscribed == None && w'.runs[r].phase == Running
              && w'.g.nodes.Keys == ws[i].g.nodes.Keys
              && (forall x :: x in ws[i].g.nodes && x != d ==> w'.g.nodes[x] == ws[i].g.nodes[x])
              && w'.walks == ws[i].walks && w'.drains == ws[i].drains && w'.g.batchedCells == ws[i].g.batchedCells
              && w'.g.batchDepth == ws[i].g.batchDepth && w'.pub == ws[i].pub
  {
    assert Enabled(ws[i], acts[i]) && ws[i + 1] == Next(ws[i], acts[i]);
    assert ws[i + 1].runs[..|ws[i].runs|] == ws[i].runs;
  }

  /**
   An observation adds exactly one entry to what its run has seen, and the entry answers what the
   compute asked: the value a source has now, the value an awaited slot has cached, or the result
   that the run it had subscribed to has published for the awaited slot.
   */
  lemma ObservationsAnswer(ws: seq<World>, acts: seq<Action>, i: nat, r: nat)
    requires IsExecution(ws, acts) && i < |acts|
    requires acts[i] in {ObserveSource(r), DeclareDep(r), TakeResolved(r), Deliver(r)}
    ensures IsRunning(ws[i], r) && |ws[i + 1].runs| == |ws[i].runs|
    ensures
      var seen, seen', op := ws[i].runs[r].seen, ws[i + 1].runs[r].seen, NextOp(ws[i], r);
      && |seen'| == |seen| + 1 && seen'[..|seen|] == seen
      && match seen'[|seen|]
         case SourceRead(s, v) => op == ReadSource(s) && IsSource(ws[i].g.nodes, s) && v == ws[i].g.nodes[s].value
         case Declared(x) => op == Declare(x) && IsComputed(ws[i].g.nodes, x)
         case Awaited(x, v) =>
           && op == Await(x) && IsComputed(ws[i].g.nodes, x)
           && if acts[i].TakeResolved? then ws[i].g.nodes[x].state.Resolved? && ws[i].g.nodes[x].cached == Some(v)
              else exists c: nat :: c < |ws[i].runs| && ws[i].runs[r].subscribed == Some(c)
                                    && ws[i].runs[c].phase == Published(v)
                                    && (Current(ws[i], r) ==> ws[i].runs[c].node == x)
  {
    var w := ws[i];
    assert Enabled(w, acts[i]) && ws[i + 1] == Next(w, acts[i]);
    Reachable(ws, acts, i);
    assert RunOk(w, r);
    assert (w.runs[r].seen + [ws[i + 1].runs[r].seen[|w.runs[r].seen|]])[..|w.runs[r].seen|] == w.runs[r].seen;
  }

  /** What is cleared is queued for a walk, and a walk of those roots empties every slot among them. */
  lemma ClearedIsEmptied(ws: seq<World>, acts: seq<Action>, i: nat, m: nat, k: nat, roots: seq<Id>, d: Id)
    requires IsExecution(ws, acts) && i < |acts| && acts[i] == Clear(roots)
    requires i < m < |acts| && acts[m] == WalkRoots(k) && k < |ws[m].walks| && ws[m].walks[k] == roots
    requires d in roots && IsComputed(ws[m].g.nodes, d)
    ensures roots in ws[i + 1].walks
    ensures IsComputed(ws[m + 1].g.nodes, d) && ws[m + 1].g.nodes[d].state == Empty
    ensures ws[m + 1].g.nodes[d].revision == ws[m].g.nodes[d].revision + 1
  {
    assert Enabled(ws[i], acts[i]) && ws[i + 1] == Next(ws[i], acts[i]);
    assert ws[i + 1].walks[|ws[i].walks|] == roots;
    assert Enabled(ws[m], acts[m]) && ws[m + 1] == Next(ws[m], acts[m]);
    ConeRoot(ws[m].g.nodes, Elems(roots), d);
    WalkIsExact(ws[m].g.nodes, Elems(roots), d);
  }

  /** A node that an effect reads lists it at once, and still does when the effect finishes having tracked it. */
  lemma EffectsAreListed(ws: seq<World>, acts: seq<Action>, i: nat, e: Id, x: Id)
    requires IsExecution(ws, acts) && i < |acts| && x in ws[i].g.nodes && !ws[i].g.nodes[x].Effect? && x != e
    requires acts[i] == EffectReads(e, x) || (acts[i].EffectFinishes? && acts[i].effect == e && x in acts[i].tracked)
    ensures Edge(ws[i + 1].g.nodes, x, e)
    ensures IsEffect(ws[i + 1].g.nodes, e) && x in ws[i + 1].g.nodes[e].dependencies
    ensures acts[i].EffectFinishes? ==> ws[i + 1].g.nodes[e].dependencies == acts[i].tracked
  {
    assert Enabled(ws[i], acts[i]) && ws[i + 1] == Next(ws[i], acts[i]);
    RegisterFacts(ws[i].g.nodes, x, e);
    EdgeInsertFacts(ws[i].g.nodes[e].dependencies, x);
  }

  // ---- evaluation depends on sources and computes only ---------------------------------

  /** The same nodes with the same source values and the same computes. */
  ghost predicate SameInputs(nodes: Nodes, nodes': Nodes) {
    && nodes'.Keys == nodes.Keys
    && forall x :: x in nodes ==>
         && KindOf(nodes'[x]) == KindOf(nodes[x])
         && (nodes[x].Source? ==> nodes'[x].value == nodes[x].value)
         && (nodes[x].Computed? ==> nodes'[x].compute == nodes[x].compute)
  }

  lemma SameKinds(nodes: Nodes, nodes': Nodes, x: Id)
    requires SameInputs(nodes, nodes')
    ensures IsSource(nodes', x) <==> IsSource(nodes, x)
    ensures IsComputed(nodes', x) <==> IsComputed(nodes, x)
  {
    if x in nodes {
      assert KindOf(nodes'[x]) == KindOf(nodes[x]);
    }
  }

  lemma {:induction false} EvalSame(nodes: Nodes, nodes': Nodes, compute: Compute, seen: seq<Entry>, f: nat)
    requires SameInputs(nodes, nodes')
    ensures EvalFrom(nodes', compute, seen, f) == EvalFrom(nodes, compute, seen, f)
    decreases f
  {
    if f > 0 {
      match compute(seen)
      case Return(_) =>
      case ReadSource(s) =>
        SameKinds(nodes, nodes', s);
        if IsSource(nodes, s) {
          EvalSame(nodes, nodes', compute, seen + [SourceRead(s, nodes[s].value)], f - 1);
        }
      case Declare(x) =>
        SameKinds(nodes, nodes', x);
        EvalSame(nodes, nodes', compute, seen + [Declared(x)], f - 1);
      case Await(e) =>
        EvalNodeSame(nodes, nodes', e, f - 1);
        var r := EvalNode(nodes, e, f - 1);
        if r.Some? {
          EvalSame(nodes, nodes', compute, seen + [Awaited(e, r.value)], f - 1);
        }
    }
  }

  lemma {:induction false} EvalNodeSame(nodes: Nodes, nodes': Nodes, d: Id, f: nat)
    requires SameInputs(nodes, nodes')
    ensures EvalNode(nodes', d, f) == EvalNode(nodes, d, f)
    decreases f
  {
    SameKinds(nodes, nodes', d);
    if f > 0 && IsComputed(nodes, d) {
      EvalSame(nodes, nodes', nodes[d].compute, [], f - 1);
    }
  }

  // ---- continuations --------------------------------------------------------------------

  ghost function Last(ws: seq<World>): World
    requires ws != []
  {
    ws[|ws| - 1]
  }

  /** Nothing is left to invalidate. */
  ghost predicate Calm(w: World) {
    w.walks == [] && w.drains == [] && w.g.batchedCells == {}
  }

  /** Run `r` is at work on slot `d`. */
  ghost predicate InFlight(w: World, d: Id, r: nat) {
    && IsComputed(w.g.nodes, d) && w.g.nodes[d].state.Computing? && w.g.nodes[d].notifier == Some(r)
    && r < |w.runs| && w.runs[r].node == d && w.runs[r].phase.Running?
  }

  ghost predicate Done(w: World, d: Id) {
    IsComputed(w.g.nodes, d) && w.g.nodes[d].state.Resolved?
  }

  /** Runs have only learnt more; what was resolved or in flight is resolved, or in flight with the same run. */
  ghost predicate Later(w: World, w': World) {
    && Calm(w') && SameInputs(w.g.nodes, w'.g.nodes)
    && (forall d {:trigger Done(w', d)} {:trigger Done(w, d)} :: Done(w, d) ==> Done(w', d))
    && (forall d, r: nat {:trigger InFlight(w, d, r)} ::
          InFlight(w, d, r) ==> Done(w', d) || (InFlight(w', d, r) && w.runs[r].seen <= w'.runs[r].seen))
  }

  lemma LaterTrans(w: World, w': World, w'': World)
    requires Later(w, w') && Later(w', w'')
    ensures Later(w, w'')
  {
    forall d, r: nat | InFlight(w, d, r)
      ensures Done(w'', d) || (InFlight(w'', d, r) && w.runs[r].seen <= w''.runs[r].seen)
    {
      if !Done(w', d) {
        assert InFlight(w', d, r);
      }
    }
  }

  /** `ws'` and `acts'` continue the execution `ws`, `acts`. */
  ghost predicate Extends(ws: seq<World>, acts: seq<Action>, ws': seq<World>, acts': seq<Action>) {
    IsExecution(ws', acts') && ws <= ws' && acts <= acts'
  }

  lemma Take(ws: seq<World>, acts: seq<Action>, a: Action) returns (ws': seq<World>, acts': seq<Action>)
    requires IsExecution(ws, acts) && Enabled(Last(ws), a)
    ensures Extends(ws, acts, ws', acts') && Last(ws') == Next(Last(ws), a) && acts' == acts + [a]
  {
    ws', acts' := ws + [Next(Last(ws), a)], acts + [a];
    forall i | 0 <= i < |acts'| ensures Enabled(ws'[i], acts'[i]) && ws'[i + 1] == Next(ws'[i], acts'[i]) {
      if i < |acts| {
        assert ws'[i] == ws[i] && ws'[i + 1] == ws[i + 1] && acts'[i] == acts[i];
      }
    }
  }

  lemma CalmIsSettled(w: World, d: Id)
    requires Calm(w) && IsComputed(w.g.nodes, d)
    ensures Settled(w, d)
  {
    assert PendingRoots(w) == {};
    ConeIsLeast(w.g.nodes, {}, {});
  }

  // ---- one step of a run ------------------------------------------------------------------

  lemma SpawnIsLater(w: World, d: Id)
    requires Inv(w) && Calm(w) && IsComputed(w.g.nodes, d) && w.g.nodes[d].state == Empty
    ensures Enabled(w, Spawn(d)) && Later(w, Next(w, Spawn(d)))
    ensures InFlight(Next(w, Spawn(d)), d, |w.runs|) && Next(w, Spawn(d)).runs[|w.runs|].seen == []
  {
  }

  /** A run observes `e`, and edges may be registered on the way. */
  lemma ObservationIsLater(w: World, w1: World, d: Id, r: nat, e: Entry)
    requires Calm(w) && InFlight(w, d, r)
    requires w1 == w.(g := w.g.(nodes := w1.g.nodes)) && w1.g.nodes.Keys == w.g.nodes.Keys
    requires forall x :: x in w.g.nodes ==> SameButEdges(w.g.nodes[x], w1.g.nodes[x])
    ensures Later(w, Observe(w1, r, e)) && InFlight(Observe(w1, r, e), d, r)
    ensures Observe(w1, r, e).runs[r].seen == w.runs[r].seen + [e]
  {
    var w' := Observe(w1, r, e);
    forall x | x in w.g.nodes ensures SameButEdges(w.g.nodes[x], w'.g.nodes[x]) {
    }
  }

  lemma ReadIsLater(w: World, d: Id, r: nat)
    requires Calm(w) && InFlight(w, d, r) && NextOp(w, r).ReadSource? && IsSource(w.g.nodes, NextOp(w, r).src)
    ensures Enabled(w, ObserveSource(r)) && Later(w, Next(w, ObserveSource(r)))
    ensures InFlight(Next(w, ObserveSource(r)), d, r)
    ensures Next(w, ObserveSource(r)).runs[r].seen ==
            w.runs[r].seen + [SourceRead(NextOp(w, r).src, w.g.nodes[NextOp(w, r).src].value)]
  {
    var s := NextOp(w, r).src;
    RegisterFacts(w.g.nodes, s, d);
    ObservationIsLater(w, RegisterEdge(w, s, d), d, r, SourceRead(s, w.g.nodes[s].value));
  }

  lemma DeclareIsLater(w: World, d: Id, r: nat)
    requires Calm(w) && InFlight(w, d, r) && NextOp(w, r).Declare? && IsComputed(w.g.nodes, NextOp(w, r).dep)
    ensures Enabled(w, DeclareDep(r)) && Later(w, Next(w, DeclareDep(r))) && InFlight(Next(w, DeclareDep(r)), d, r)
    ensures Next(w, DeclareDep(r)).runs[r].seen == w.runs[r].seen + [Declared(NextOp(w, r).dep)]
  {
    var x := NextOp(w, r).dep;
    RegisterFacts(w.g.nodes, x, d);
    ObservationIsLater(w, RegisterEdge(w, x, d), d, r, Declared(x));
  }

  lemma AwaitIsLater(w: World, d: Id, r: nat, x: Id)
    requires Inv(w) && Calm(w) && InFlight(w, d, r) && Done(w, x)
    requires NextOp(w, r) == Await(x) && Declared(x) in w.runs[r].seen
    ensures Enabled(w, TakeResolved(r)) && Later(w, Next(w, TakeResolved(r)))
    ensures InFlight(Next(w, TakeResolved(r)), d, r)
    ensures w.g.nodes[x].cached.Some?
    ensures Next(w, TakeResolved(r)).runs[r].seen == w.runs[r].seen + [Awaited(x, w.g.nodes[x].cached.value)]
  {
    assert SlotOk(w, x);
    ObservationIsLater(w, w, d, r, Awaited(x, w.g.nodes[x].cached.value));
  }

  /** The ids of a set in some order. */
  lemma {:induction false} Order(s: set<Id>) returns (order: seq<Id>)
    ensures NoDup(order) && Elems(order) == s
    decreases |s|
  {
    if s == {} {
      order := [];
    } else {
      var x :| x in s;
      var rest := Order(s - {x});
      order := rest + [x];
      assert x !in Elems(rest);
      assert Elems(order) == Elems(rest) + {x};
    }
  }

  lemma ReturnIsLater(w: World, d: Id, r: nat, order: seq<Id>)
    requires Inv(w) && Calm(w) && InFlight(w, d, r) && NextOp(w, r).Return?
    requires NoDup(order) && Elems(order) == Tracked(w.runs[r].seen)
    ensures Enabled(w, Complete(r, order)) && Later(w, Next(w, Complete(r, order)))
    ensures Done(Next(w, Complete(r, order)), d)
  {
    var w' := Next(w, Complete(r, order));
    assert SlotOk(w, d) && RunOk(w, r);
    RewireFacts(w.g.nodes, d, order);
    forall x | x in w.g.nodes && x != d ensures SameButEdges(w.g.nodes[x], w'.g.nodes[x]) {
    }
    forall x, q: nat | InFlight(w, x, q) && x != d ensures InFlight(w', x, q) && w.runs[q].seen <= w'.runs[q].seen {
      assert q != r;
    }
  }

  // ---- driving a run to its end --------------------------------------------------------------

  /** Observations that agree with the sources now are those that evaluation from scratch makes too. */
  lemma {:induction false} Follow(w: World, compute: Compute, seen: seq<Entry>, k: nat, f: nat) returns (g: nat)
    requires k <= |seen| && Scripted(compute, seen) && EvalFrom(w.g.nodes, compute, seen[..k], f).Some?
    requires forall i :: 0 <= i < |seen| ==> AgreesNow(w, seen[i])
    ensures g <= f - (|seen| - k)
    ensures EvalFrom(w.g.nodes, compute, seen, g) == EvalFrom(w.g.nodes, compute, seen[..k], f)
    decreases |seen| - k
  {
    if k == |seen| {
      assert seen[..k] == seen;
      g := f;
    } else {
      assert seen[..k + 1] == seen[..k] + [seen[k]];
      assert Follows(compute(seen[..k]), seen[k]) && AgreesNow(w, seen[k]);
      if seen[k].Awaited? {
        var v := EvalNode(w.g.nodes, seen[k].slot, f - 1);
        assert FromScratch(w.g.nodes, seen[k].slot, v.value);
        FromScratchUnique(w.g.nodes, seen[k].slot, v.value, seen[k].value);
      }
      g := Follow(w, compute, seen, k + 1, f - 1);
    }
  }

  /** The run of a slot in flight has seen nothing that evaluation from scratch does not see. */
  lemma RunFollows(ws: seq<World>, acts: seq<Action>, d: Id, r: nat, k: nat, f: nat) returns (g: nat)
    requires IsExecution(ws, acts) && Calm(Last(ws)) && InFlight(Last(ws), d, r) && k <= |Last(ws).runs[r].seen|
    requires EvalFrom(Last(ws).g.nodes, Last(ws).g.nodes[d].compute, Last(ws).runs[r].seen[..k], f).Some?
    ensures g <= f - (|Last(ws).runs[r].seen| - k)
    ensures EvalFrom(Last(ws).g.nodes, Last(ws).g.nodes[d].compute, Last(ws).runs[r].seen, g).Some?
  {
    var w, i := Last(ws), |ws| - 1;
    Reachable(ws, acts, i);
    assert SlotOk(w, d) && RunOk(w, r) && LiveRunOk(w, r);
    CalmIsSettled(w, d);
    forall j | 0 <= j < |w.runs[r].seen| ensures AgreesNow(w, w.runs[r].seen[j]) {
      RunsSeeOneWorld(ws, acts, i, r, j);
    }
    g := Follow(w, w.g.nodes[d].compute, w.runs[r].seen, k, f);
  }

  /** The run of a slot in flight can be driven to its end. */
  lemma {:induction false} Drive(ws: seq<World>, acts: seq<Action>, d: Id, r: nat, f: nat)
    returns (ws': seq<World>, acts': seq<Action>)
    requires IsExecution(ws, acts) && Calm(Last(ws)) && InFlight(Last(ws), d, r)
    requires EvalFrom(Last(ws).g.nodes, Last(ws).g.nodes[d].compute, Last(ws).runs[r].seen, f).Some?
    ensures Extends(ws, acts, ws', acts') && Later(Last(ws), Last(ws')) && Done(Last(ws'), d)
    decreases f, 0
  {
    var w := Last(ws);
    Reachable(ws, acts, |ws| - 1);
    match NextOp(w, r)
    case Return(_) =>
      var order := Order(Tracked(w.runs[r].seen));
      ReturnIsLater(w, d, r, order);
      ws', acts' := Take(ws, acts, Complete(r, order));
    case ReadSource(_) =>
      ReadIsLater(w, d, r);
      ws', acts' := DriveOn(ws, acts, d, r, f, ObserveSource(r));
    case Declare(_) =>
      DeclareIsLater(w, d, r);
      ws', acts' := DriveOn(ws, acts, d, r, f, DeclareDep(r));
    case Await(x) => ws', acts' := DriveAwait(ws, acts, d, r, x, f);
  }

  /** One observation, and on. */
  lemma {:induction false} DriveOn(ws: seq<World>, acts: seq<Action>, d: Id, r: nat, f: nat, a: Action)
    returns (ws': seq<World>, acts': seq<Action>)
    requires IsExecution(ws, acts) && Calm(Last(ws)) && InFlight(Last(ws), d, r) && f > 0
    requires Enabled(Last(ws), a) && Later(Last(ws), Next(Last(ws), a)) && InFlight(Next(Last(ws), a), d, r)
    requires EvalFrom(Last(ws).g.nodes, Last(ws).g.nodes[d].compute, Next(Last(ws), a).runs[r].seen, f - 1).Some?
    ensures Extends(ws, acts, ws', acts') && Later(Last(ws), Last(ws')) && Done(Last(ws'), d)
    decreases f - 1, 1
  {
    var w := Last(ws);
    var ws1, acts1 := Take(ws, acts, a);
    EvalSame(w.g.nodes, Last(ws1).g.nodes, w.g.nodes[d].compute, Last(ws1).runs[r].seen, f - 1);
    ws', acts' := Drive(ws1, acts1, d, r, f - 1);
    LaterTrans(w, Last(ws1), Last(ws'));
  }

  /** The awaited slot is resolved first. The run may have been driven further, or to its end, on the way. */
  lemma {:induction false} DriveAwait(ws: seq<World>, acts: seq<Action>, d: Id, r: nat, x: Id, f: nat)
    returns (ws': seq<World>, acts': seq<Action>)
    requires IsExecution(ws, acts) && Calm(Last(ws)) && InFlight(Last(ws), d, r) && f > 0
    requires NextOp(Last(ws), r) == Await(x)
    requires EvalFrom(Last(ws).g.nodes, Last(ws).g.nodes[d].compute, Last(ws).runs[r].seen, f).Some?
    ensures Extends(ws, acts, ws', acts') && Later(Last(ws), Last(ws')) && Done(Last(ws'), d)
    decreases f - 1, 3
  {
    var w, compute := Last(ws), Last(ws).g.nodes[d].compute;
    var seen := w.runs[r].seen;
    var ws1, acts1 := Resolve(ws, acts, x, f - 1);
    var w1 := Last(ws1);
    ws', acts' := ws1, acts1;
    if !Done(w1, d) {
      assert InFlight(w1, d, r) && seen <= w1.runs[r].seen;
      EvalSame(w.g.nodes, w1.g.nodes, compute, seen, f);
      EvalNodeSame(w.g.nodes, w1.g.nodes, x, f - 1);
      if w1.runs[r].seen == seen {
        AwaitedValue(ws1, acts1, x, f - 1);
        AwaitIsLater(w1, d, r, x);
        ws', acts' := DriveOn(ws1, acts1, d, r, f, TakeResolved(r));
      } else {
        assert w1.runs[r].seen[..|seen|] == seen;
        var g := RunFollows(ws1, acts1, d, r, |seen|, f);
        EvalFromMonotone(w1.g.nodes, compute, w1.runs[r].seen, g, f - 1);
        ws', acts' := Drive(ws1, acts1, d, r, f - 1);
      }
      LaterTrans(w, w1, Last(ws'));
    }
  }

  lemma AwaitedValue(ws: seq<World>, acts: seq<Action>, x: Id, f: nat)
    requires IsExecution(ws, acts) && Calm(Last(ws)) && Done(Last(ws), x) && EvalNode(Last(ws).g.nodes, x, f).Some?
    ensures Inv(Last(ws)) && Last(ws).g.nodes[x].cached == EvalNode(Last(ws).g.nodes, x, f)
  {
    var w := Last(ws);
    Reachable(ws, acts, |ws| - 1);
    CalmIsSettled(w, x);
    CacheIsFresh(ws, acts, |ws| - 1, x);
    var v := EvalNode(w.g.nodes, x, f).value;
    assert FromScratch(w.g.nodes, x, v);
    FromScratchUnique(w.g.nodes, x, v, w.g.nodes[x].cached.value);
  }

  /** From a calm world, a slot that evaluates from scratch can be resolved. */
  lemma {:induction false} Resolve(ws: seq<World>, acts: seq<Action>, d: Id, f: nat)
    returns (ws': seq<World>, acts': seq<Action>)
    requires IsExecution(ws, acts) && Calm(Last(ws)) && EvalNode(Last(ws).g.nodes, d, f).Some?
    ensures Extends(ws, acts, ws', acts') && Later(Last(ws), Last(ws')) && Done(Last(ws'), d)
    decreases f, 2
  {
    var w := Last(ws);
    Reachable(ws, acts, |ws| - 1);
    assert SlotOk(w, d);
    match w.g.nodes[d].state
    case Resolved => ws', acts' := ws, acts;
    case Empty =>
      SpawnIsLater(w, d);
      var ws1, acts1 := Take(ws, acts, Spawn(d));
      EvalSame(w.g.nodes, Last(ws1).g.nodes, w.g.nodes[d].compute, [], f - 1);
      ws', acts' := Drive(ws1, acts1, d, |w.runs|, f - 1);
      LaterTrans(w, Last(ws1), Last(ws'));
    case Computing(_) =>
      var r := w.g.nodes[d].notifier.value;
      assert InFlight(w, d, r) && w.runs[r].seen[..0] == [];
      var g := RunFollows(ws, acts, d, r, 0, f - 1);
      ws', acts' := Drive(ws, acts, d, r, g);
  }

  // ---- everything pending can be worked off --------------------------------------------------

  /** A batched cell belongs to an open batch. */
  ghost predicate BatchOk(w: World) {
    w.g.batchDepth == 0 ==> w.g.batchedCells == {}
  }

  lemma BatchStep(w: World, a: Action)
    requires BatchOk(w) && Enabled(w, a)
    ensures BatchOk(Next(w, a))
  {
  }

  lemma {:induction false} BatchReachable(ws: seq<World>, acts: seq<Action>, i: nat)
    requires IsExecution(ws, acts) && i < |ws|
    ensures BatchOk(ws[i])
    decreases i
  {
    if i > 0 {
      BatchReachable(ws, acts, i - 1);
      BatchStep(ws[i - 1], acts[i - 1]);
    }
  }

  lemma SameInputsTrans(a: Nodes, b: Nodes, c: Nodes)
    requires SameInputs(a, b) && SameInputs(b, c)
    ensures SameInputs(a, c)
  {
    forall x | x in a ensures KindOf(c[x]) == KindOf(a[x]) {
      assert KindOf(b[x]) == KindOf(a[x]) && KindOf(c[x]) == KindOf(b[x]);
    }
  }

  lemma {:induction false} CloseBatches(ws: seq<World>, acts: seq<Action>) returns (ws': seq<World>, acts': seq<Action>)
    requires IsExecution(ws, acts)
    ensures Extends(ws, acts, ws', acts') && SameInputs(Last(ws).g.nodes, Last(ws').g.nodes)
    ensures Last(ws').g.batchedCells == {}
    decreases Last(ws).g.batchDepth
  {
    if Last(ws).g.batchDepth == 0 {
      BatchReachable(ws, acts, |ws| - 1);
      ws', acts' := ws, acts;
    } else {
      var ws1, acts1 := Take(ws, acts, BatchExit);
      ws', acts' := CloseBatches(ws1, acts1);
    }
  }

  ghost function Undrained(w: World): nat {
    if w.drains == [] then 0 else |w.drains[0].cells|
  }

  lemma {:induction false} FinishDrains(ws: seq<World>, acts: seq<Action>) returns (ws': seq<World>, acts': seq<Action>)
    requires IsExecution(ws, acts) && Last(ws).g.batchedCells == {}
    ensures Extends(ws, acts, ws', acts') && SameInputs(Last(ws).g.nodes, Last(ws').g.nodes)
    ensures Last(ws').g.batchedCells == {} && Last(ws').drains == []
    decreases |Last(ws).drains|, Undrained(Last(ws))
  {
    var w := Last(ws);
    if w.drains == [] {
      ws', acts' := ws, acts;
    } else {
      var a := DrainDone(0);
      if s :| s in w.drains[0].cells {
        a := DrainCell(0, s);
      }
      var ws1, acts1 := Take(ws, acts, a);
      ws', acts' := FinishDrains(ws1, acts1);
    }
  }

  lemma {:induction false} FinishWalks(ws: seq<World>, acts: seq<Action>) returns (ws': seq<World>, acts': seq<Action>)
    requires IsExecution(ws, acts) && Last(ws).g.batchedCells == {} && Last(ws).drains == []
    ensures Extends(ws, acts, ws', acts') && SameInputs(Last(ws).g.nodes, Last(ws').g.nodes) && Calm(Last(ws'))
    decreases |Last(ws).walks|
  {
    if Last(ws).walks == [] {
      ws', acts' := ws, acts;
    } else {
      var ws1, acts1 := Take(ws, acts, WalkRoots(0));
      ws', acts' := FinishWalks(ws1, acts1);
      SameInputsTrans(Last(ws).g.nodes, Last(ws1).g.nodes, Last(ws').g.nodes);
    }
  }

  /** From every reachable world all pending invalidations can be worked off, with the same sources and computes. */
  lemma CanCalmDown(ws: seq<World>, acts: seq<Action>) returns (ws': seq<World>, acts': seq<Action>)
    requires IsExecution(ws, acts)
    ensures Extends(ws, acts, ws', acts') && SameInputs(Last(ws).g.nodes, Last(ws').g.nodes) && Calm(Last(ws'))
  {
    var ws1, acts1 := CloseBatches(ws, acts);
    var ws2, acts2 := FinishDrains(ws1, acts1);
    ws', acts' := FinishWalks(ws2, acts2);
    SameInputsTrans(Last(ws).g.nodes, Last(ws1).g.nodes, Last(ws2).g.nodes);
    SameInputsTrans(Last(ws).g.nodes, Last(ws2).g.nodes, Last(ws').g.nodes);
  }

  /**
   Progress: every execution, whatever is pending or in flight at its end, can be continued with
   the same sources and computes until a slot that has a value from scratch is resolved to it.
   */
  lemma SlotsCanResolve(ws: seq<World>, acts: seq<Action>, d: Id, v: Value)
    returns (ws': seq<World>, acts': seq<Action>)
    requires IsExecution(ws, acts) && FromScratch(Last(ws).g.nodes, d, v)
    ensures Extends(ws, acts, ws', acts') && SameInputs(Last(ws).g.nodes, Last(ws').g.nodes)
    ensures IsComputed(Last(ws').g.nodes, d)
    ensures Last(ws').g.nodes[d].state == Resolved && Last(ws').g.nodes[d].cached == Some(v)
  {
    var f: nat :| EvalNode(Last(ws).g.nodes, d, f) == Some(v);
    var ws1, acts1 := CanCalmDown(ws, acts);
    EvalNodeSame(Last(ws).g.nodes, Last(ws1).g.nodes, d, f);
    ws', acts' := Resolve(ws1, acts1, d, f);
    EvalNodeSame(Last(ws1).g.nodes, Last(ws').g.nodes, d, f);
    AwaitedValue(ws', acts', d, f);
    SameInputsTrans(Last(ws).g.nodes, Last(ws1).g.nodes, Last(ws').g.nodes);
  }
}
