/** No scheduled effect is ever lost between the queue and the flushes that drain it. */
module EffectQueue {
  import opened Prelude
  import opened Graph
  import opened Edges
  import opened Lifecycle
  import opened Effects

  /** The flush has still to look at `e`'s `force_run`. */
  ghost predicate Ahead(f: Flush, e: Id) {
    f.queue != [] && (e in f.queue[1..] || (e == f.queue[0] && (f.stage.Idle? || f.stage.Checked?)))
  }

  /** The flush has cleared `e`'s `force_run` and is on its way to spawn it. */
  ghost predicate Passing(f: Flush, e: Id) {
    f.queue != [] && e == f.queue[0] && (f.stage.Cleared? || f.stage.Fetched? || f.stage.Captured?)
  }

  ghost predicate Waiting(w: EWorld, e: Id) {
    e in w.g.pending || exists k :: 0 <= k < |w.flushes| && Ahead(w.flushes[k], e)
  }

  ghost predicate BeingRun(w: EWorld, e: Id) {
    exists k :: 0 <= k < |w.flushes| && Passing(w.flushes[k], e)
  }

  ghost predicate Forced(nodes: Nodes, e: Id) {
    IsEffect(nodes, e) && nodes[e].forceRun
  }

  ghost predicate EffectOk(w: EWorld, e: Id) {
    && (Forced(w.g.nodes, e) ==> Waiting(w, e))
    && (e in w.owed ==> IsEffect(w.g.nodes, e) && (w.g.nodes[e].forceRun || BeingRun(w, e)))
  }

  ghost predicate QueueInv(w: EWorld) {
    && Partitioned(w.g)
    && QueueOk(w.g)
    && forall e {:trigger EffectOk(w, e)} :: EffectOk(w, e)
  }

  // ---- what leaves effects alone ---------------------------------------------

  ghost predicate SameEffect(n: Node, n': Node) {
    n.Effect? && n'.Effect? && n'.body == n.body && n'.cleanup == n.cleanup && n'.forceRun == n.forceRun
  }

  /** The same effects with the same content, `except` aside. */
  ghost predicate SameEffects(nodes: Nodes, nodes': Nodes, except: set<Id>) {
    forall e {:trigger IsEffect(nodes, e)} {:trigger IsEffect(nodes', e)} :: e !in except ==>
      (IsEffect(nodes, e) <==> IsEffect(nodes', e)) && (IsEffect(nodes, e) ==> SameEffect(nodes[e], nodes'[e]))
  }

  lemma DisposeKeepsEffects(g: Graph, h: Handle, kind: Kind)
    ensures SameEffects(g.nodes, AfterDispose(g, h, kind).nodes, if kind == EffectKind then {h.id} else {})
    ensures Names(g, h, EffectKind) && kind == EffectKind ==> h.id !in AfterDispose(g, h, kind).nodes
  {
    if Names(g, h, kind) {
      DisposeSame(g, h, kind);
    }
  }

  lemma {:induction false} WithoutFacts(s: seq<Id>, id: Id)
    ensures forall x :: x in Without(s, id) <==> x in s && x != id
    ensures NoDup(s) ==> NoDup(Without(s, id))
    decreases |s|
  {
    if s != [] {
      WithoutFacts(s[1..], id);
      assert s == [s[0]] + s[1..];
      assert NoDup(s) ==> NoDup(s[1..]) && s[0] !in s[1..];
    }
  }

  lemma DisposeKeepsPartition(g: Graph, h: Handle, kind: Kind)
    requires Partitioned(g)
    ensures Partitioned(AfterDispose(g, h, kind))
    ensures forall i: nat :: Generation(AfterDispose(g, h, kind), i) ==
                             Generation(g, i) + if Names(g, h, kind) && i == h.id then 1 else 0
  {
    if Names(g, h, kind) {
      DisposeIds(g, h, kind);
      var g' := AfterDispose(g, h, kind);
      assert forall i: Id :: i in g'.freeIds <==> i in g.freeIds || i == h.id;
    }
  }

  /** A disposed effect leaves the queue, and every other one keeps its place in it. */
  lemma DisposedIsDequeued(w: EWorld, h: Handle)
    requires QueueOk(w.g) && Names(w.g, h, EffectKind)
    ensures h.id !in DropEffect(w, h).g.pending && h.id !in DropEffect(w, h).g.scheduled
    ensures forall e :: e != h.id ==>
              (e in DropEffect(w, h).g.pending <==> e in w.g.pending)
              && (e in DropEffect(w, h).g.scheduled <==> e in w.g.scheduled)
  {
    WithoutFacts(w.g.pending, h.id);
  }

  // ---- every action keeps the queue ------------------------------------------

  /** Waiting and running claims survive when no flush moves and the queue only grows. */
  lemma FlushesStand(w: EWorld, w': EWorld, e: Id)
    requires EffectOk(w, e) && w'.flushes == w.flushes
    requires e in w.g.pending ==> e in w'.g.pending
    requires IsEffect(w.g.nodes, e) <==> IsEffect(w'.g.nodes, e)
    requires IsEffect(w.g.nodes, e) ==> w'.g.nodes[e].forceRun == w.g.nodes[e].forceRun
    requires e in w'.owed ==> e in w.owed
    ensures EffectOk(w', e)
  {
  }

  lemma MakeOtherQueues(w: EWorld, n: Node)
    requires QueueInv(w) && !n.Effect?
    ensures QueueInv(Do(w, MakeOther(n)))
  {
    var w' := Do(w, MakeOther(n));
    NewNodeIds(w.g, n);
    forall e ensures EffectOk(w', e) {
      assert EffectOk(w, e);
      FlushesStand(w, w', e);
    }
  }

  lemma MakeEffectQueues(w: EWorld, b: nat)
    requires QueueInv(w)
    ensures QueueInv(CreateEffect(w, b))
  {
    var (g, id) := NewNode(w.g, FreshEffect(b));
    var w' := CreateEffect(w, b);
    NewNodeIds(w.g, FreshEffect(b));
    assert w'.g.nodes == w.g.nodes[id := FreshEffect(b)];
    forall e ensures EffectOk(w', e) {
      assert EffectOk(w, e);
      if e != id {
        FlushesStand(w, w', e);
      }
    }
  }

  lemma DisposeOtherQueues(w: EWorld, h: Handle, kind: Kind)
    requires QueueInv(w) && kind != EffectKind
    ensures QueueInv(w.(g := AfterDispose(w.g, h, kind)))
  {
    var w' := w.(g := AfterDispose(w.g, h, kind));
    DisposeKeepsEffects(w.g, h, kind);
    DisposeKeepsPartition(w.g, h, kind);
    forall e ensures EffectOk(w', e) {
      assert EffectOk(w, e);
      FlushesStand(w, w', e);
    }
  }

  lemma DisposeOneQueues(w: EWorld, h: Handle)
    requires QueueInv(w)
    ensures QueueInv(DropEffect(w, h))
  {
    var w' := DropEffect(w, h);
    DisposeKeepsEffects(w.g, h, EffectKind);
    DisposeKeepsPartition(w.g, h, EffectKind);
    WithoutFacts(w.g.pending, h.id);
    forall e ensures EffectOk(w', e) {
      assert EffectOk(w, e);
      if !(Names(w.g, h, EffectKind) && e == h.id) {
        FlushesStand(w, w', e);
      }
    }
  }

  lemma ScheduleQueues(w: EWorld, id: Id)
    requires QueueInv(w)
    ensures QueueInv(Do(w, ScheduleOne(id)))
  {
    var w' := Do(w, ScheduleOne(id));
    assert id in w.g.scheduled <==> id in w.g.pending;
    forall e ensures EffectOk(w', e) {
      assert EffectOk(w, e);
      if e != id {
        FlushesStand(w, w', e);
      }
    }
  }

  lemma StartFlushQueues(w: EWorld)
    requires QueueInv(w)
    ensures QueueInv(Do(w, StartFlush))
  {
    var w' := Do(w, StartFlush);
    var f := Flush(w.g.pending, Idle);
    assert w'.flushes[|w.flushes|] == f;
    assert forall k :: 0 <= k < |w.flushes| ==> w'.flushes[k] == w.flushes[k];
    forall e ensures EffectOk(w', e) {
      assert EffectOk(w, e);
      if e in w.g.pending {
        assert Ahead(f, e);
      }
    }
  }

  /** One flush moves from `f` to `f'`; every other claim is carried over. */
  lemma FlushMoves(w: EWorld, w': EWorld, k: nat, e: Id)
    requires EffectOk(w, e) && k < |w.flushes| && |w'.flushes| == |w.flushes|
    requires forall i :: 0 <= i < |w.flushes| && i != k ==> w'.flushes[i] == w.flushes[i]
    requires w'.g.pending == w.g.pending
    requires IsEffect(w.g.nodes, e) <==> IsEffect(w'.g.nodes, e)
    requires Forced(w'.g.nodes, e) ==> Forced(w.g.nodes, e) && (Ahead(w.flushes[k], e) ==> Ahead(w'.flushes[k], e))
    requires e in w'.owed ==> e in w.owed
    requires e in w'.owed && Forced(w.g.nodes, e) ==> Forced(w'.g.nodes, e) || Passing(w'.flushes[k], e)
    requires e in w'.owed && Passing(w.flushes[k], e) ==> Forced(w'.g.nodes, e) || Passing(w'.flushes[k], e)
    ensures EffectOk(w', e)
  {
    if Forced(w'.g.nodes, e) && e !in w.g.pending {
      var i :| 0 <= i < |w.flushes| && Ahead(w.flushes[i], e);
      assert Ahead(w'.flushes[i], e);
    }
    if e in w'.owed && !Forced(w'.g.nodes, e) && !Passing(w'.flushes[k], e) {
      var i :| 0 <= i < |w.flushes| && Passing(w.flushes[i], e);
      assert Passing(w'.flushes[i], e);
    }
  }

  lemma PopAhead(f: Flush, e: Id)
    requires f.queue != [] && e in f.queue[1..]
    ensures Ahead(Flush(f.queue[1..], Idle), e)
  {
    var q := f.queue[1..];
    var i :| 0 <= i < |q| && q[i] == e;
    if i > 0 {
      assert q[1..][i - 1] == e;
    }
  }

  lemma FlushStepQueues(w: EWorld, a: EAction, k: nat)
    requires QueueInv(w) && CanDo(w, a)
    requires a == FlushCheck(k) || a == FlushClear(k) || a == FlushFetch(k) || a == FlushCapture(k) ||
             a == FlushSpawn(k)
    ensures QueueInv(Do(w, a))
  {
    var w' := Do(w, a);
    var f := w.flushes[k];
    forall e ensures EffectOk(w', e) {
      assert EffectOk(w, e);
      if e in f.queue[1..] {
        PopAhead(f, e);
      }
      FlushMoves(w, w', k, e);
    }
  }

  lemma RunStepFrame(w: EWorld, a: EAction)
    requires CanDo(w, a)
    requires a.DisposerCalls? || a.RunStarts? || a.RunCallsPrior? || a.RunFinishes? || a.RunCallsOwn? || a.RunAborted?
    ensures Do(w, a).flushes == w.flushes && Do(w, a).owed == w.owed && Do(w, a).bodies == w.bodies
    ensures Do(w, a).g == w.g.(nodes := Do(w, a).g.nodes)
    ensures Do(w, a).g.nodes.Keys == w.g.nodes.Keys
    ensures forall x :: x in w.g.nodes ==>
              Do(w, a).g.nodes[x] == w.g.nodes[x]
              || (w.g.nodes[x].Effect? && Do(w, a).g.nodes[x] == w.g.nodes[x].(cleanup := Do(w, a).g.nodes[x].cleanup))
  {
  }

  lemma RunStepQueues(w: EWorld, a: EAction)
    requires QueueInv(w) && CanDo(w, a)
    requires a.DisposerCalls? || a.RunStarts? || a.RunCallsPrior? || a.RunFinishes? || a.RunCallsOwn? || a.RunAborted?
    ensures QueueInv(Do(w, a))
  {
    var w' := Do(w, a);
    RunStepFrame(w, a);
    forall e ensures EffectOk(w', e) {
      assert EffectOk(w, e);
      FlushesStand(w, w', e);
    }
  }

  lemma QueueStep(w: EWorld, a: EAction)
    requires QueueInv(w) && CanDo(w, a)
    ensures QueueInv(Do(w, a))
  {
    match a
    case MakeOther(n) => MakeOtherQueues(w, n);
    case MakeEffect(b) => MakeEffectQueues(w, b);
    case DisposeOther(h, kind) => DisposeOtherQueues(w, h, kind);
    case DisposeOne(h) => DisposeOneQueues(w, h);
    case ScheduleOne(id) => ScheduleQueues(w, id);
    case StartFlush => StartFlushQueues(w);
    case FlushCheck(k) => FlushStepQueues(w, a, k);
    case FlushClear(k) => FlushStepQueues(w, a, k);
    case FlushFetch(k) => FlushStepQueues(w, a, k);
    case FlushCapture(k) => FlushStepQueues(w, a, k);
    case FlushSpawn(k) => FlushStepQueues(w, a, k);
    case _ => RunStepQueues(w, a);
  }

  lemma {:induction false} QueueReachable(ws: seq<EWorld>, acts: seq<EAction>, i: nat)
    requires IsSchedule(ws, acts) && i < |ws|
    ensures QueueInv(ws[i])
    decreases i
  {
    if i > 0 {
      QueueReachable(ws, acts, i - 1);
      QueueStep(ws[i - 1], acts[i - 1]);
    }
  }

  /** The pending list has no duplicates and is exactly the scheduled set, in every interleaving. */
  lemma PendingMirrorsScheduled(ws: seq<EWorld>, acts: seq<EAction>, i: nat)
    requires IsSchedule(ws, acts) && i < |ws|
    ensures NoDup(ws[i].g.pending) && Elems(ws[i].g.pending) == ws[i].g.scheduled
  {
    QueueReachable(ws, acts, i);
  }

  /**
   No lost effect: one whose `force_run` is set is pending or still ahead in some flush, and one
   that was scheduled and not spawned since is waiting in that way or already past its check.
   */
  lemma NoLostEffect(ws: seq<EWorld>, acts: seq<EAction>, i: nat, e: Id)
    requires IsSchedule(ws, acts) && i < |ws|
    ensures Forced(ws[i].g.nodes, e) ==> Waiting(ws[i], e)
    ensures e in ws[i].owed ==> IsEffect(ws[i].g.nodes, e) && (Waiting(ws[i], e) || BeingRun(ws[i], e))
  {
    QueueReachable(ws, acts, i);
    assert EffectOk(ws[i], e);
  }
}
