/**
 The cleanups that effect runs return, in every schedule: who can still call each of them, which
 step loses one, and what a run can do to the graph after its effect has gone.
 */
module EffectTokens {
  import opened Prelude
  import opened Graph
  import opened Edges
  import opened Lifecycle
  import opened Effects
  import opened EffectQueue

  ghost predicate SameInstance(r: EffectRun, r': EffectRun) {
    r.id == r'.id && r.gen == r'.gen
  }

  function At(w: EWorld, c: nat): Place {
    if c < |w.place| then w.place[c] else Nowhere
  }

  /** Some holder can still call `c`, or it has been called. */
  ghost predicate Accounted(w: EWorld, c: nat) {
    || (exists e :: IsEffect(w.g.nodes, e) && w.g.nodes[e].cleanup == Some(c))
    || (exists u :: 0 <= u < |w.runs| && w.runs[u].stage == Holding(c))
    || (c < |w.runs| && w.runs[c].stage == HoldingOwn)
    || c in w.disposers
    || c in w.called
  }

  /** The finish of run `c`, which returns a cleanup named by the run. */
  predicate Returns(a: EAction, c: nat) {
    a == RunFinishes(c, true)
  }

  /**
   A finish under the generation the id has now loses `c`: it overwrites `c` in the effect that
   is there, or it returns `c` itself and no effect is there to store it.
   */
  ghost predicate Loses(w: EWorld, a: EAction, c: nat) {
    && a.RunFinishes? && a.t < |w.runs|
    && var r := w.runs[a.t];
       && Generation(w.g, r.id) == r.gen
       && if IsEffect(w.g.nodes, r.id) then w.g.nodes[r.id].cleanup == Some(c) else Returns(a, c)
  }

  // ---- the invariant of every schedule -----------------------------------------

  /** A run holds what its place says it holds, and a cleanup has a place once it is returned. */
  ghost predicate RunHolds(w: EWorld, t: nat) {
    t < |w.runs| ==>
      var r := w.runs[t];
      && (r.stage.Holding? ==>
            && r.stage.token < |w.runs| && At(w, r.stage.token) == WithRun(t)
            && SameInstance(w.runs[r.stage.token], r))
      && (r.returned ==> r.stage.Ended? || r.stage.HoldingOwn?)
      && (r.stage.HoldingOwn? ==> At(w, t) == WithSelf)
      && (r.returned <==> At(w, t) != Nowhere)
  }

  /** A stored cleanup belongs to a run of the incarnation that stores it. */
  ghost predicate NodeHolds(w: EWorld, e: Id) {
    IsEffect(w.g.nodes, e) && w.g.nodes[e].cleanup.Some? ==>
      var c := w.g.nodes[e].cleanup.value;
      c < |w.runs| && At(w, c) == InNode && w.runs[c].id == e && w.runs[c].gen == Generation(w.g, e)
  }

  ghost predicate ListsFit(w: EWorld) {
    && NoDup(w.disposers) && NoDup(w.called)
    && (forall c :: c in w.disposers ==> c < |w.place| && w.place[c] == WithDisposer)
    && (forall c :: c in w.called ==> c < |w.place| && w.place[c] == Called)
  }

  ghost predicate TokenInv(w: EWorld) {
    && Partitioned(w.g)
    && |w.place| == |w.runs|
    && ListsFit(w)
    && (forall t: nat {:trigger RunHolds(w, t)} :: RunHolds(w, t))
    && (forall e {:trigger NodeHolds(w, e)} :: NodeHolds(w, e))
  }

  /** The holder a cleanup's place names has it. A cleanup that was lost keeps its place without one. */
  ghost predicate Held(w: EWorld, c: nat) {
    c < |w.runs|
    && match At(w, c)
       case Nowhere => false
       case InNode => IsEffect(w.g.nodes, w.runs[c].id) && w.g.nodes[w.runs[c].id].cleanup == Some(c)
       case WithRun(u) => u < |w.runs| && w.runs[u].stage == Holding(c)
       case WithSelf => w.runs[c].stage == HoldingOwn
       case WithDisposer => c in w.disposers
       case Called => c in w.called
  }

  /** A cleanup has at most one holder, the one its place names. */
  lemma HeldIsAccounted(w: EWorld, c: nat)
    requires TokenInv(w)
    ensures Held(w, c) <==> Accounted(w, c)
  {
    if e :| IsEffect(w.g.nodes, e) && w.g.nodes[e].cleanup == Some(c) {
      assert NodeHolds(w, e);
    }
    if u :| 0 <= u < |w.runs| && w.runs[u].stage == Holding(c) {
      assert RunHolds(w, u);
    }
    assert RunHolds(w, c);
  }

  /** What one step does to the holders: it keeps them all but for what it returns and what it loses. */
  ghost predicate Carries(w: EWorld, a: EAction, w': EWorld, c: nat) {
    Held(w', c) <==> (Held(w, c) || Returns(a, c)) && !Loses(w, a, c)
  }

  ghost predicate StepOk(w: EWorld, a: EAction, w': EWorld) {
    TokenInv(w') && forall c: nat {:trigger Carries(w, a, w', c)} :: Carries(w, a, w', c)
  }

  // ---- steps that move no cleanup ------------------------------------------------

  /** The same cleanups are stored under the same generations. */
  ghost predicate SameStored(g: Graph, g': Graph) {
    forall e {:trigger IsEffect(g.nodes, e)} {:trigger IsEffect(g'.nodes, e)} ::
      && (IsEffect(g.nodes, e) && g.nodes[e].cleanup.Some? ==>
            IsEffect(g'.nodes, e) && g'.nodes[e].cleanup == g.nodes[e].cleanup && Generation(g', e) == Generation(g, e))
      && (IsEffect(g'.nodes, e) && g'.nodes[e].cleanup.Some? ==>
            IsEffect(g.nodes, e) && g.nodes[e].cleanup == g'.nodes[e].cleanup)
  }

  lemma SameStoredOk(w: EWorld, a: EAction, w': EWorld)
    requires TokenInv(w) && Partitioned(w'.g) && SameStored(w.g, w'.g) && !a.RunFinishes?
    requires w'.runs == w.runs && w'.place == w.place && w'.disposers == w.disposers && w'.called == w.called
    ensures StepOk(w, a, w')
  {
    forall t: nat ensures RunHolds(w', t) {
      assert RunHolds(w, t);
    }
    forall e ensures NodeHolds(w', e) {
      assert NodeHolds(w, e);
    }
    forall c: nat ensures Carries(w, a, w', c) {
    }
  }

  lemma MakeOk(w: EWorld, a: EAction)
    requires TokenInv(w) && CanDo(w, a) && (a.MakeOther? || a.MakeEffect?)
    ensures StepOk(w, a, Do(w, a))
  {
    var n := if a.MakeOther? then a.node else FreshEffect(a.body);
    NewNodeIds(w.g, n);
    var w' := Do(w, a);
    assert w'.g.nodes == w.g.nodes[NewNode(w.g, n).1 := n];
    SameStoredOk(w, a, w');
  }

  lemma DisposeOtherOk(w: EWorld, a: EAction)
    requires TokenInv(w) && CanDo(w, a) && a.DisposeOther?
    ensures StepOk(w, a, Do(w, a))
  {
    DisposeKeepsEffects(w.g, a.h, a.kind);
    DisposeKeepsPartition(w.g, a.h, a.kind);
    SameStoredOk(w, a, Do(w, a));
  }

  lemma QueueStepOk(w: EWorld, a: EAction)
    requires TokenInv(w) && CanDo(w, a)
    requires a.ScheduleOne? || a.StartFlush? || a.FlushCheck? || a.FlushClear? || a.FlushFetch? || a.FlushCapture?
    ensures StepOk(w, a, Do(w, a))
  {
    SameStoredOk(w, a, Do(w, a));
  }

  /** Runs may be added or change stage, as long as none of them holds anything before or after. */
  lemma StageOk(w: EWorld, a: EAction, w': EWorld)
    requires TokenInv(w) && w'.g == w.g && w'.disposers == w.disposers && w'.called == w.called && !a.RunFinishes?
    requires |w.runs| <= |w'.runs| == |w'.place|
    requires forall t :: 0 <= t < |w.runs| ==>
               && w'.place[t] == w.place[t]
               && (w'.runs[t] == w.runs[t]
                   || (w'.runs[t] == w.runs[t].(stage := w'.runs[t].stage)
                       && !w.runs[t].returned && (w'.runs[t].stage.InBody? || w'.runs[t].stage.Ended?)
                       && !w.runs[t].stage.Holding? && !w.runs[t].stage.HoldingOwn?))
    requires forall t :: |w.runs| <= t < |w'.runs| ==>
               w'.place[t] == Nowhere && w'.runs[t].stage == Spawned && !w'.runs[t].returned
    ensures StepOk(w, a, w')
  {
    forall t: nat ensures RunHolds(w', t) {
      assert RunHolds(w, t);
    }
    forall e ensures NodeHolds(w', e) {
      assert NodeHolds(w, e);
    }
    forall c: nat ensures Carries(w, a, w', c) {
      assert RunHolds(w, c);
    }
  }

  lemma SpawnOrAbortOk(w: EWorld, a: EAction)
    requires TokenInv(w) && CanDo(w, a) && (a.FlushSpawn? || a.RunAborted?)
    ensures StepOk(w, a, Do(w, a))
  {
    if a.RunAborted? {
      assert RunHolds(w, a.t);
    }
    StageOk(w, a, Do(w, a));
  }

  // ---- steps that move one ---------------------------------------------------------

  lemma DropOk(w: EWorld, h: Handle)
    requires TokenInv(w)
    ensures StepOk(w, DisposeOne(h), DropEffect(w, h))
  {
    var w' := DropEffect(w, h);
    DisposeKeepsEffects(w.g, h, EffectKind);
    DisposeKeepsPartition(w.g, h, EffectKind);
    assert NodeHolds(w, h.id);
    if Names(w.g, h, EffectKind) && w.g.nodes[h.id].cleanup.Some? {
      DropTakes(w, h, w', w.g.nodes[h.id].cleanup.value);
    } else {
      SameStoredOk(w, DisposeOne(h), w');
    }
  }

  /** A disposer takes the stored cleanup with it. */
  lemma DropTakes(w: EWorld, h: Handle, w': EWorld, c: nat)
    requires TokenInv(w) && w' == DropEffect(w, h) && Partitioned(w'.g)
    requires Names(w.g, h, EffectKind) && w.g.nodes[h.id].cleanup == Some(c)
    requires SameEffects(w.g.nodes, w'.g.nodes, {h.id}) && h.id !in w'.g.nodes
    requires forall i: nat :: i != h.id ==> Generation(w'.g, i) == Generation(w.g, i)
    ensures StepOk(w, DisposeOne(h), w')
  {
    assert NodeHolds(w, h.id);
    assert w'.disposers == w.disposers + [c] && w'.place == w.place[c := WithDisposer];
    forall t: nat ensures RunHolds(w', t) {
      assert RunHolds(w, t);
    }
    forall e ensures NodeHolds(w', e) {
      assert NodeHolds(w, e);
    }
    forall x: nat ensures Carries(w, DisposeOne(h), w', x) {
      if x < |w.runs| {
        assert IsEffect(w.g.nodes, w.runs[x].id) ==> NodeHolds(w, w.runs[x].id);
      }
    }
  }

  /** A cleanup is called by whoever holds it: nobody else has it, and it was not called before. */
  lemma CallOk(w: EWorld, a: EAction, w': EWorld, c: nat)
    requires TokenInv(w) && !a.RunFinishes?
    requires c < |w.runs| && w.place[c] != Nowhere && w.place[c] != Called && w.place[c] != InNode && Held(w, c)
    requires w'.g == w.g && w'.called == w.called + [c] && w'.place == w.place[c := Called]
    requires ListsFit(w') && |w'.runs| == |w.runs|
    requires forall t :: 0 <= t < |w.runs| ==>
               || w'.runs[t] == w.runs[t]
               || (w.place[c] == WithRun(t) && w'.runs[t] == w.runs[t].(stage := InBody))
               || (w.place[c] == WithSelf && t == c && w'.runs[t] == w.runs[t].(stage := Ended))
    requires w.place[c].WithRun? && w.place[c].run < |w.runs| ==> !w'.runs[w.place[c].run].stage.Holding?
    requires w.place[c] == WithSelf ==> w'.runs[c].stage == Ended
    requires forall x :: x in w.disposers && x != c ==> x in w'.disposers
    requires forall x :: x in w'.disposers ==> x in w.disposers
    ensures StepOk(w, a, w')
  {
    assert RunHolds(w, c);
    forall t: nat ensures RunHolds(w', t) {
      assert RunHolds(w, t);
    }
    forall e ensures NodeHolds(w', e) {
      assert NodeHolds(w, e);
    }
    forall x: nat ensures Carries(w, a, w', x) {
      assert RunHolds(w, x);
    }
  }

  lemma DisposerCallsOk(w: EWorld, k: nat)
    requires TokenInv(w) && k < |w.disposers|
    ensures StepOk(w, DisposerCalls(k), Do(w, DisposerCalls(k)))
  {
    var c := w.disposers[k];
    assert c in w.disposers;
    var rest := w.disposers[..k] + w.disposers[k + 1..];
    assert w.disposers == w.disposers[..k] + [c] + w.disposers[k + 1..];
    assert forall x :: x in rest ==> x in w.disposers && x != c;
    CallOk(w, DisposerCalls(k), Do(w, DisposerCalls(k)), c);
  }

  lemma RunCallsOk(w: EWorld, a: EAction)
    requires TokenInv(w) && CanDo(w, a) && (a.RunCallsPrior? || a.RunCallsOwn?)
    ensures StepOk(w, a, Do(w, a))
  {
    assert RunHolds(w, a.t);
    CallOk(w, a, Do(w, a), if a.RunCallsPrior? then w.runs[a.t].stage.token else a.t);
  }

  /** A run takes over the cleanup of its predecessor. */
  lemma BeginTakes(w: EWorld, t0: nat, c: nat, w': EWorld)
    requires TokenInv(w) && CanDo(w, RunStarts(t0)) && w' == BeginRun(w, t0)
    requires Generation(w.g, w.runs[t0].id) == w.runs[t0].gen
    requires IsEffect(w.g.nodes, w.runs[t0].id) && w.g.nodes[w.runs[t0].id].cleanup == Some(c)
    ensures StepOk(w, RunStarts(t0), w')
  {
    var r := w.runs[t0];
    assert NodeHolds(w, r.id) && RunHolds(w, t0) && RunHolds(w, c);
    assert c != t0 && c < |w.runs|;
    assert w'.runs == w.runs[t0 := r.(stage := Holding(c))] && w'.place == w.place[c := WithRun(t0)];
    assert w'.g == w.g.(nodes := w.g.nodes[r.id := w.g.nodes[r.id].(cleanup := None)]);
    forall t: nat ensures RunHolds(w', t) {
      assert RunHolds(w, t);
    }
    forall e ensures NodeHolds(w', e) {
      assert NodeHolds(w, e);
    }
    forall x: nat ensures Carries(w, RunStarts(t0), w', x) {
      assert RunHolds(w, x);
    }
  }

  lemma BeginOk(w: EWorld, t: nat)
    requires TokenInv(w) && CanDo(w, RunStarts(t))
    ensures StepOk(w, RunStarts(t), BeginRun(w, t))
  {
    var r := w.runs[t];
    if Generation(w.g, r.id) == r.gen && IsEffect(w.g.nodes, r.id) && w.g.nodes[r.id].cleanup.Some? {
      BeginTakes(w, t, w.g.nodes[r.id].cleanup.value, BeginRun(w, t));
    } else {
      assert RunHolds(w, t);
      StageOk(w, RunStarts(t), BeginRun(w, t));
    }
  }

  /** What a finish leaves behind. */
  lemma EndFrame(w: EWorld, t: nat, b: bool)
    requires TokenInv(w) && CanDo(w, RunFinishes(t, b))
    ensures
      var w', r := EndRun(w, t, b), w.runs[t];
      var mine := Generation(w.g, r.id) == r.gen;
      && !r.returned && At(w, t) == Nowhere
      && w' == w.(g := w'.g, runs := w'.runs, place := w'.place)
      && w'.runs == w.runs[t := r.(stage := if b && !mine then HoldingOwn else Ended, returned := b)]
      && w'.place == (if b then w.place[t := if mine then InNode else WithSelf] else w.place)
      && w'.g == if mine && IsEffect(w.g.nodes, r.id)
                 then w.g.(nodes := w.g.nodes[r.id := w.g.nodes[r.id].(cleanup := if b then Some(t) else None)])
                 else w.g
  {
    assert RunHolds(w, t);
  }

  lemma EndCarries(w: EWorld, t: nat, b: bool, c: nat)
    requires TokenInv(w) && CanDo(w, RunFinishes(t, b))
    ensures Carries(w, RunFinishes(t, b), EndRun(w, t, b), c)
  {
    EndFrame(w, t, b);
    var r := w.runs[t];
    assert RunHolds(w, c) && RunHolds(w, t) && NodeHolds(w, r.id);
    if c < |w.runs| {
      assert NodeHolds(w, w.runs[c].id);
    }
  }

  lemma EndOk(w: EWorld, t0: nat, b: bool)
    requires TokenInv(w) && CanDo(w, RunFinishes(t0, b))
    ensures StepOk(w, RunFinishes(t0, b), EndRun(w, t0, b))
  {
    var w' := EndRun(w, t0, b);
    EndFrame(w, t0, b);
    forall t: nat ensures RunHolds(w', t) {
      assert RunHolds(w, t);
    }
    forall e ensures NodeHolds(w', e) {
      assert NodeHolds(w, e);
    }
    forall c: nat ensures Carries(w, RunFinishes(t0, b), w', c) {
      EndCarries(w, t0, b, c);
    }
  }

  lemma TokenStep(w: EWorld, a: EAction)
    requires TokenInv(w) && CanDo(w, a)
    ensures StepOk(w, a, Do(w, a))
  {
    match a
    case MakeOther(_) => MakeOk(w, a);
    case MakeEffect(_) => MakeOk(w, a);
    case DisposeOther(_, _) => DisposeOtherOk(w, a);
    case DisposeOne(h) => DropOk(w, h);
    case DisposerCalls(k) => DisposerCallsOk(w, k);
    case FlushSpawn(_) => SpawnOrAbortOk(w, a);
    case RunAborted(_) => SpawnOrAbortOk(w, a);
    case RunStarts(t) => BeginOk(w, t);
    case RunFinishes(t, b) => EndOk(w, t, b);
    case RunCallsPrior(_) => RunCallsOk(w, a);
    case RunCallsOwn(_) => RunCallsOk(w, a);
    case _ => QueueStepOk(w, a);
  }

  lemma {:induction false} TokensReachable(ws: seq<EWorld>, acts: seq<EAction>, i: nat)
    requires IsSchedule(ws, acts) && i < |ws|
    ensures TokenInv(ws[i])
    decreases i
  {
    if i > 0 {
      TokensReachable(ws, acts, i - 1);
      TokenStep(ws[i - 1], acts[i - 1]);
    }
  }

  // ---- which finish loses a cleanup ---------------------------------------------------

  /**
   In every schedule: a finish loses a cleanup, a stored one or its own, if and only if the run's
   generation is the one the id has now and either the effect there stores a cleanup, or the run
   returns one and no effect is there.
   */
  lemma FinishLosesIff(ws: seq<EWorld>, acts: seq<EAction>, i: nat, t: nat, b: bool)
    requires IsSchedule(ws, acts) && i < |acts| && acts[i] == RunFinishes(t, b)
    ensures t < |ws[i].runs|
    ensures
      (exists c: nat :: (Accounted(ws[i], c) || (b && c == t)) && !Accounted(ws[i + 1], c)) <==>
      var g, r := ws[i].g, ws[i].runs[t];
      && Generation(g, r.id) == r.gen
      && if IsEffect(g.nodes, r.id) then g.nodes[r.id].cleanup.Some? else b
  {
    var w, w', r := ws[i], ws[i + 1], ws[i].runs[t];
    TokensReachable(ws, acts, i);
    TokenStep(w, acts[i]);
    forall c: nat ensures Accounted(w', c) <==> (Accounted(w, c) || (b && c == t)) && !Loses(w, acts[i], c) {
      HeldIsAccounted(w, c);
      HeldIsAccounted(w', c);
      assert Carries(w, acts[i], w', c);
    }
    if Generation(w.g, r.id) == r.gen {
      if IsEffect(w.g.nodes, r.id) && w.g.nodes[r.id].cleanup.Some? {
        var c := w.g.nodes[r.id].cleanup.value;
        assert Accounted(w, c) && Loses(w, acts[i], c) && !Accounted(w', c);
      } else if !IsEffect(w.g.nodes, r.id) && b {
        assert Loses(w, acts[i], t);
        assert (Accounted(w, t) || b) && !Accounted(w', t);
      }
    }
  }

  /** Some finish before step `i` lost `c`. */
  ghost predicate LostBefore(ws: seq<EWorld>, acts: seq<EAction>, i: nat, c: nat)
    requires IsFragment(ws, acts) && i < |ws|
  {
    exists k :: 0 <= k < i && Loses(ws[k], acts[k], c)
  }

  /** Runs are never forgotten, keep their identity, and have returned exactly what they finished with. */
  lemma ReturnedStep(w: EWorld, a: EAction, c: nat)
    requires TokenInv(w) && CanDo(w, a)
    ensures |w.runs| <= |Do(w, a).runs|
    ensures c < |w.runs| ==>
              SameInstance(Do(w, a).runs[c], w.runs[c]) &&
                  (Do(w, a).runs[c].returned <==> w.runs[c].returned || Returns(a, c))
    ensures |w.runs| <= c < |Do(w, a).runs| ==> !Do(w, a).runs[c].returned
  {
    assert RunHolds(w, c);
  }

  /** Only what has been returned, by then or by this very step, is lost. */
  lemma LosesReturned(w: EWorld, a: EAction, c: nat)
    requires TokenInv(w) && CanDo(w, a) && Loses(w, a, c)
    ensures c < |w.runs| && (w.runs[c].returned || Returns(a, c))
  {
    assert NodeHolds(w, w.runs[a.t].id) && RunHolds(w, c);
  }

  lemma LostStep(ws: seq<EWorld>, acts: seq<EAction>, i: nat, c: nat)
    requires IsFragment(ws, acts) && i < |acts|
    ensures LostBefore(ws, acts, i + 1, c) <==> LostBefore(ws, acts, i, c) || Loses(ws[i], acts[i], c)
  {
  }

  /** In every schedule a returned cleanup is with one holder or called, unless a finish has lost it. */
  lemma {:induction false} KeptUnlessLost(ws: seq<EWorld>, acts: seq<EAction>, i: nat, c: nat)
    requires IsSchedule(ws, acts) && i < |ws|
    ensures Held(ws[i], c) <==> c < |ws[i].runs| && ws[i].runs[c].returned && !LostBefore(ws, acts, i, c)
    ensures LostBefore(ws, acts, i, c) ==> c < |ws[i].runs| && ws[i].runs[c].returned
    decreases i
  {
    if i > 0 {
      var w, a := ws[i - 1], acts[i - 1];
      KeptUnlessLost(ws, acts, i - 1, c);
      TokensReachable(ws, acts, i - 1);
      LostStep(ws, acts, i - 1, c);
      KeptStep(w, a, c, LostBefore(ws, acts, i - 1, c));
    }
  }

  lemma KeptStep(w: EWorld, a: EAction, c: nat, lost: bool)
    requires TokenInv(w) && CanDo(w, a)
    requires Held(w, c) <==> c < |w.runs| && w.runs[c].returned && !lost
    requires lost ==> c < |w.runs| && w.runs[c].returned
    ensures
      var w', lost' := Do(w, a), lost || Loses(w, a, c);
      && (Held(w', c) <==> c < |w'.runs| && w'.runs[c].returned && !lost')
      && (lost' ==> c < |w'.runs| && w'.runs[c].returned)
  {
    TokenStep(w, a);
    assert Carries(w, a, Do(w, a), c) && RunHolds(w, c);
    ReturnedStep(w, a, c);
    if Loses(w, a, c) {
      LosesReturned(w, a, c);
    }
  }

  // ---- exactly once ---------------------------------------------------------------------

  /** Effect incarnation `(id, gen)` is disposed, its runs have ended and its disposer has called what it took. */
  ghost predicate Over(w: EWorld, id: Id, gen: nat) {
    && Generation(w.g, id) != gen
    && (forall u :: 0 <= u < |w.runs| && w.runs[u].id == id && w.runs[u].gen == gen ==> w.runs[u].stage.Ended?)
    && (forall c :: c in w.disposers && c < |w.runs| ==> !(w.runs[c].id == id && w.runs[c].gen == gen))
  }

  lemma HeldWhenOver(w: EWorld, t: nat)
    requires TokenInv(w) && t < |w.runs| && Over(w, w.runs[t].id, w.runs[t].gen)
    ensures Held(w, t) <==> t in w.called
  {
    assert RunHolds(w, t) && NodeHolds(w, w.runs[t].id);
    if At(w, t).WithRun? {
      assert RunHolds(w, At(w, t).run);
    }
  }

  /**
   In every schedule, overlapping runs and badly timed disposals included: no cleanup is called
   twice or without having been returned, a returned cleanup can still be called or has been if
   and only if no finish has lost it, and once the effect is over it has been called if and only
   if no finish has lost it.
   */
  lemma CleanupExactlyOnce(ws: seq<EWorld>, acts: seq<EAction>, i: nat, t: nat)
    requires IsSchedule(ws, acts) && i < |ws| && t < |ws[i].runs|
    ensures NoDup(ws[i].called)
    ensures t in ws[i].called ==> ws[i].runs[t].returned
    ensures ws[i].runs[t].returned ==> (Accounted(ws[i], t) <==> !LostBefore(ws, acts, i, t))
    ensures Over(ws[i], ws[i].runs[t].id, ws[i].runs[t].gen) && ws[i].runs[t].returned ==>
              (t in ws[i].called <==> !LostBefore(ws, acts, i, t))
  {
    TokensReachable(ws, acts, i);
    KeptUnlessLost(ws, acts, i, t);
    HeldIsAccounted(ws[i], t);
    assert RunHolds(ws[i], t);
    if Over(ws[i], ws[i].runs[t].id, ws[i].runs[t].gen) {
      HeldWhenOver(ws[i], t);
    }
  }

  // ---- late runs ---------------------------------------------------------------------------

  lemma GenerationsStep(w: EWorld, a: EAction, id: nat)
    requires Partitioned(w.g) && CanDo(w, a)
    ensures Generation(w.g, id) <= Generation(Do(w, a).g, id)
    ensures a.DisposeOne? && Names(w.g, a.h, EffectKind) && id == a.h.id ==> a.h.gen < Generation(Do(w, a).g, id)
  {
    match a
    case MakeOther(n) => NewNodeIds(w.g, n);
    case MakeEffect(b) => NewNodeIds(w.g, FreshEffect(b));
    case DisposeOther(h, kind) => DisposeKeepsPartition(w.g, h, kind);
    case DisposeOne(h) => DisposeKeepsPartition(w.g, h, EffectKind);
    case _ =>
  }

  lemma NextRise(ws: seq<EWorld>, acts: seq<EAction>, i: nat, id: nat)
    requires IsSchedule(ws, acts) && i < |acts|
    ensures Generation(ws[i].g, id) <= Generation(ws[i + 1].g, id)
  {
    TokensReachable(ws, acts, i);
    GenerationsStep(ws[i], acts[i], id);
  }

  lemma {:induction false} Rising(f: seq<nat>, i: nat, j: nat)
    requires i <= j < |f| && forall k :: i <= k < j ==> f[k] <= f[k + 1]
    ensures f[i] <= f[j]
    decreases j - i
  {
    if i < j {
      Rising(f, i, j - 1);
    }
  }

  lemma GenerationsRise(ws: seq<EWorld>, acts: seq<EAction>, i: nat, j: nat, id: nat)
    requires IsSchedule(ws, acts) && i <= j < |ws|
    ensures Generation(ws[i].g, id) <= Generation(ws[j].g, id)
  {
    var f := seq(|ws|, k requires 0 <= k < |ws| => Generation(ws[k].g, id));
    forall k | i <= k < j ensures f[k] <= f[k + 1] {
      NextRise(ws, acts, k, id);
    }
    Rising(f, i, j);
  }

  /** An action that run `t` takes. */
  predicate ActsFor(a: EAction, t: nat) {
    a == RunStarts(t) || a == RunCallsPrior(t) || a == RunCallsOwn(t) || a == RunAborted(t) ||
        (a.RunFinishes? && a.t == t)
  }

  /**
   After an effect has been disposed, no run of that incarnation, whenever it was spawned, changes
   the graph at any later step, whoever has the id by then.
   */
  lemma LateRunWritesNothing(ws: seq<EWorld>, acts: seq<EAction>, i: nat, j: nat, t: nat)
    requires IsSchedule(ws, acts) && i < j < |acts|
    requires acts[i].DisposeOne? && Names(ws[i].g, acts[i].h, EffectKind)
    requires t < |ws[j].runs| && Handle(ws[j].runs[t].id, ws[j].runs[t].gen) == acts[i].h && ActsFor(acts[j], t)
    ensures ws[j + 1].g == ws[j].g
  {
    var h := acts[i].h;
    TokensReachable(ws, acts, i);
    GenerationsStep(ws[i], acts[i], h.id);
    GenerationsRise(ws, acts, i + 1, j, h.id);
    assert Generation(ws[j].g, h.id) != h.gen;
  }
}
