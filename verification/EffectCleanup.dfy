/**
 Bodies and disciplines: which body a run executes, when a flush pairs a body with the wrong
 incarnation, and the two conditions under which no cleanup is ever lost.
 */
module EffectCleanup {
  import opened Prelude
  import opened Graph
  import opened Edges
  import opened Lifecycle
  import opened Effects
  import opened EffectQueue
  import opened EffectTokens

  /** `body` is the one effect incarnation `(id, gen)` was created with. */
  ghost predicate Runs(w: EWorld, id: Id, gen: nat, body: nat) {
    Handle(id, gen) in w.bodies && w.bodies[Handle(id, gen)] == body
  }

  // ---- bodies, in every schedule ------------------------------------------------

  ghost predicate BodyOk(w: EWorld, h: Handle) {
    h in w.bodies ==>
      && h.gen <= Generation(w.g, h.id)
      && (h.gen == Generation(w.g, h.id) ==> IsEffect(w.g.nodes, h.id) && w.g.nodes[h.id].body == w.bodies[h])
  }

  ghost predicate NodeNamed(w: EWorld, e: Id) {
    IsEffect(w.g.nodes, e) ==> Handle(e, Generation(w.g, e)) in w.bodies
  }

  /** A body is fetched together with the incarnation it belongs to. */
  ghost predicate FetchOk(w: EWorld, k: nat) {
    k < |w.flushes| && w.flushes[k].queue != [] && w.flushes[k].stage.Fetched? ==>
      Runs(w, w.flushes[k].queue[0], w.flushes[k].stage.at, w.flushes[k].stage.body)
  }

  ghost predicate BodyInv(w: EWorld) {
    && Partitioned(w.g)
    && (forall h {:trigger BodyOk(w, h)} :: BodyOk(w, h))
    && (forall e {:trigger NodeNamed(w, e)} :: NodeNamed(w, e))
    && (forall k: nat {:trigger FetchOk(w, k)} :: FetchOk(w, k))
  }

  /** Generations only grow, and an incarnation that is still there keeps its body. */
  ghost predicate SameBodies(g: Graph, g': Graph) {
    && (forall i: nat :: Generation(g, i) <= Generation(g', i))
    && (forall e :: IsEffect(g.nodes, e) && Generation(g', e) == Generation(g, e) ==>
          IsEffect(g'.nodes, e) && g'.nodes[e].body == g.nodes[e].body)
    && (forall e :: IsEffect(g'.nodes, e) ==> IsEffect(g.nodes, e) && Generation(g', e) == Generation(g, e))
  }

  lemma SameBodiesKeep(w: EWorld, w': EWorld)
    requires BodyInv(w) && Partitioned(w'.g) && SameBodies(w.g, w'.g) && w'.bodies == w.bodies
    requires forall k: nat :: FetchOk(w', k)
    ensures BodyInv(w')
  {
    forall h ensures BodyOk(w', h) {
      assert BodyOk(w, h);
    }
    forall e ensures NodeNamed(w', e) {
      assert NodeNamed(w, e);
    }
  }

  lemma MakeEffectNames(w: EWorld, b: nat)
    requires BodyInv(w)
    ensures BodyInv(CreateEffect(w, b))
    ensures Handle(NewNode(w.g, FreshEffect(b)).1, Generation(w.g, NewNode(w.g, FreshEffect(b)).1)) !in w.bodies
  {
    var (g, id) := NewNode(w.g, FreshEffect(b));
    var w' := CreateEffect(w, b);
    NewNodeIds(w.g, FreshEffect(b));
    assert w'.g.nodes == w.g.nodes[id := FreshEffect(b)];
    assert BodyOk(w, Handle(id, Generation(w.g, id)));
    forall h ensures BodyOk(w', h) {
      assert BodyOk(w, h);
    }
    forall e ensures NodeNamed(w', e) {
      assert NodeNamed(w, e);
    }
    forall k: nat ensures FetchOk(w', k) {
      assert FetchOk(w, k);
    }
  }

  lemma FlushStepNames(w: EWorld, a: EAction)
    requires BodyInv(w) && CanDo(w, a)
    requires a.StartFlush? || a.FlushCheck? || a.FlushClear? || a.FlushFetch? || a.FlushCapture? || a.FlushSpawn?
    ensures BodyInv(Do(w, a))
  {
    var w' := Do(w, a);
    if a.FlushFetch? {
      var e := w.flushes[a.k].queue[0];
      assert NodeNamed(w, e) && BodyOk(w, Handle(e, Generation(w.g, e)));
    }
    forall k: nat ensures FetchOk(w', k) {
      assert FetchOk(w, k);
    }
    SameBodiesKeep(w, w');
  }

  /** Steps of runs and disposers, and scheduling, leave flushes and bodies alone. */
  lemma QuietNames(w: EWorld, a: EAction)
    requires BodyInv(w) && CanDo(w, a)
    requires a.ScheduleOne? || a.DisposerCalls? || a.RunStarts? || a.RunCallsPrior? || a.RunFinishes? || a.RunCallsOwn?
             || a.RunAborted?
    ensures BodyInv(Do(w, a))
  {
    if !a.ScheduleOne? {
      RunStepFrame(w, a);
    }
    forall k: nat ensures FetchOk(Do(w, a), k) {
      assert FetchOk(w, k);
    }
    SameBodiesKeep(w, Do(w, a));
  }

  lemma DisposeNames(w: EWorld, h: Handle, kind: Kind, w': EWorld)
    requires BodyInv(w) && w'.g == AfterDispose(w.g, h, kind) && w'.bodies == w.bodies && w'.flushes == w.flushes
    ensures BodyInv(w')
  {
    DisposeKeepsEffects(w.g, h, kind);
    DisposeKeepsPartition(w.g, h, kind);
    forall k: nat ensures FetchOk(w', k) {
      assert FetchOk(w, k);
    }
    SameBodiesKeep(w, w');
  }

  lemma BodyStep(w: EWorld, a: EAction)
    requires BodyInv(w) && CanDo(w, a)
    ensures BodyInv(Do(w, a))
  {
    match a
    case MakeOther(n) =>
      NewNodeIds(w.g, n);
      forall k: nat ensures FetchOk(Do(w, a), k) {
        assert FetchOk(w, k);
      }
      SameBodiesKeep(w, Do(w, a));
    case MakeEffect(b) => MakeEffectNames(w, b);
    case DisposeOther(h, kind) => DisposeNames(w, h, kind, Do(w, a));
    case DisposeOne(h) => DisposeNames(w, h, EffectKind, Do(w, a));
    case StartFlush => FlushStepNames(w, a);
    case FlushCheck(_) => FlushStepNames(w, a);
    case FlushClear(_) => FlushStepNames(w, a);
    case FlushFetch(_) => FlushStepNames(w, a);
    case FlushCapture(_) => FlushStepNames(w, a);
    case FlushSpawn(_) => FlushStepNames(w, a);
    case _ => QuietNames(w, a);
  }

  lemma {:induction false} BodiesReachable(ws: seq<EWorld>, acts: seq<EAction>, i: nat)
    requires IsSchedule(ws, acts) && i < |ws|
    ensures BodyInv(ws[i])
    decreases i
  {
    if i > 0 {
      BodiesReachable(ws, acts, i - 1);
      BodyStep(ws[i - 1], acts[i - 1]);
    }
  }

  /** No two effects were created with the same body. */
  ghost predicate DistinctBodies(w: EWorld) {
    forall h, h' :: h in w.bodies && h' in w.bodies && w.bodies[h] == w.bodies[h'] ==> h == h'
  }

  /** In every schedule, a flush pairs a body with its own incarnation iff no disposal came between its two reads. */
  lemma CaptureOwnsIff(ws: seq<EWorld>, acts: seq<EAction>, i: nat, k: nat)
    requires IsSchedule(ws, acts) && i < |acts| && acts[i] == FlushCapture(k) && DistinctBodies(ws[i])
    ensures HeadAt(ws[i], k) && ws[i].flushes[k].stage.Fetched?
    ensures HeadAt(ws[i + 1], k) && ws[i + 1].flushes[k].stage.Captured?
    ensures
      var f := ws[i + 1].flushes[k];
      Runs(ws[i], f.queue[0], f.stage.gen, f.stage.body) <==>
          Generation(ws[i].g, f.queue[0]) == ws[i].flushes[k].stage.at
  {
    BodiesReachable(ws, acts, i);
    assert FetchOk(ws[i], k);
  }

  // ---- the first discipline: capture in time -------------------------------------

  /** No disposal falls between the fetch of an effect's body and the capture of its generation. */
  ghost predicate Punctual(w: EWorld, a: EAction)
    requires CanDo(w, a)
  {
    a.FlushCapture? ==> Generation(w.g, w.flushes[a.k].queue[0]) == w.flushes[a.k].stage.at
  }

  ghost predicate CaptureOk(w: EWorld, k: nat) {
    k < |w.flushes| && w.flushes[k].queue != [] && w.flushes[k].stage.Captured? ==>
      Runs(w, w.flushes[k].queue[0], w.flushes[k].stage.gen, w.flushes[k].stage.body)
  }

  ghost predicate RunOwns(w: EWorld, t: nat) {
    t < |w.runs| ==> Runs(w, w.runs[t].id, w.runs[t].gen, w.runs[t].body)
  }

  ghost predicate OwnInv(w: EWorld) {
    && BodyInv(w)
    && (forall k: nat {:trigger CaptureOk(w, k)} :: CaptureOk(w, k))
    && (forall t: nat {:trigger RunOwns(w, t)} :: RunOwns(w, t))
  }

  lemma BodiesGrow(w: EWorld, a: EAction)
    requires BodyInv(w) && CanDo(w, a)
    ensures forall h :: h in w.bodies ==> h in Do(w, a).bodies && Do(w, a).bodies[h] == w.bodies[h]
  {
    if a.MakeEffect? {
      MakeEffectNames(w, a.body);
    }
  }

  lemma CaptureStep(w: EWorld, a: EAction, k: nat)
    requires OwnInv(w) && CanDo(w, a) && Punctual(w, a)
    requires forall h :: h in w.bodies ==> h in Do(w, a).bodies && Do(w, a).bodies[h] == w.bodies[h]
    ensures CaptureOk(Do(w, a), k)
  {
    assert FetchOk(w, k) && CaptureOk(w, k);
  }

  lemma RunOwnsStep(w: EWorld, a: EAction, t: nat)
    requires OwnInv(w) && CanDo(w, a)
    requires forall h :: h in w.bodies ==> h in Do(w, a).bodies && Do(w, a).bodies[h] == w.bodies[h]
    ensures RunOwns(Do(w, a), t)
  {
    assert RunOwns(w, t);
    if a.FlushSpawn? {
      assert CaptureOk(w, a.k);
    }
  }

  lemma OwnStep(w: EWorld, a: EAction)
    requires OwnInv(w) && CanDo(w, a) && Punctual(w, a)
    ensures OwnInv(Do(w, a))
  {
    BodyStep(w, a);
    BodiesGrow(w, a);
    forall k: nat ensures CaptureOk(Do(w, a), k) {
      CaptureStep(w, a, k);
    }
    forall t: nat ensures RunOwns(Do(w, a), t) {
      RunOwnsStep(w, a, t);
    }
  }

  ghost predicate IsPunctualSchedule(ws: seq<EWorld>, acts: seq<EAction>) {
    IsSchedule(ws, acts) && forall i :: 0 <= i < |acts| ==> CanDo(ws[i], acts[i]) && Punctual(ws[i], acts[i])
  }

  lemma {:induction false} OwnReachable(ws: seq<EWorld>, acts: seq<EAction>, i: nat)
    requires IsPunctualSchedule(ws, acts) && i < |ws|
    ensures OwnInv(ws[i])
    decreases i
  {
    if i > 0 {
      OwnReachable(ws, acts, i - 1);
      OwnStep(ws[i - 1], acts[i - 1]);
    }
  }

  /** With captures in time, a run executes the body its effect incarnation was created with, overlapping or not. */
  lemma RunsOwnBody(ws: seq<EWorld>, acts: seq<EAction>, i: nat, t: nat)
    requires IsPunctualSchedule(ws, acts) && i < |ws| && t < |ws[i].runs|
    ensures Runs(ws[i], ws[i].runs[t].id, ws[i].runs[t].gen, ws[i].runs[t].body)
  {
    OwnReachable(ws, acts, i);
    assert RunOwns(ws[i], t);
  }

  /**
   Over whole schedules the discipline is exact: with a body of its own for every effect, every
   flush holds bodies of the incarnation it will run them for if and only if all captures are in time.
   */
  lemma BodiesPairedIff(ws: seq<EWorld>, acts: seq<EAction>)
    requires IsSchedule(ws, acts) && forall i :: 0 <= i < |ws| ==> DistinctBodies(ws[i])
    ensures IsPunctualSchedule(ws, acts) <==>
            forall i, k: nat {:trigger CaptureOk(ws[i], k)} :: 0 <= i < |ws| ==> CaptureOk(ws[i], k)
  {
    if IsPunctualSchedule(ws, acts) {
      forall i, k: nat | 0 <= i < |ws| ensures CaptureOk(ws[i], k) {
        OwnReachable(ws, acts, i);
      }
    } else {
      var i :| 0 <= i < |acts| && !Punctual(ws[i], acts[i]);
      CaptureOwnsIff(ws, acts, i, acts[i].k);
      assert !CaptureOk(ws[i + 1], acts[i].k);
    }
  }

  // ---- the second discipline: one run of an effect at a time -------------------------

  ghost predicate Active(r: EffectRun) {
    r.stage.Holding? || r.stage.InBody?
  }

  /** Captures are in time, and runs of one effect do not overlap. */
  ghost predicate Orderly(w: EWorld, a: EAction)
    requires CanDo(w, a)
  {
    && Punctual(w, a)
    && (a.RunStarts? ==>
          forall u :: 0 <= u < |w.runs| && u != a.t && SameInstance(w.runs[u], w.runs[a.t]) ==> !Active(w.runs[u]))
  }

  /** Between its first and last section, a run whose effect is alive finds no cleanup stored. */
  ghost predicate RunAlone(w: EWorld, t: nat) {
    t < |w.runs| && Active(w.runs[t]) && w.runs[t].gen == Generation(w.g, w.runs[t].id) ==>
      IsEffect(w.g.nodes, w.runs[t].id) && w.g.nodes[w.runs[t].id].cleanup == None
  }

  /** At most one run of an effect incarnation is between its first and last section. */
  ghost predicate SoleActive(w: EWorld, t: nat, u: nat) {
    t < |w.runs| && u < |w.runs| && Active(w.runs[t]) && Active(w.runs[u]) && SameInstance(w.runs[t], w.runs[u]) ==>
        t == u
  }

  ghost predicate AloneInv(w: EWorld) {
    && OwnInv(w)
    && (forall t: nat {:trigger RunAlone(w, t)} :: RunAlone(w, t))
    && (forall t: nat, u: nat {:trigger SoleActive(w, t, u)} :: SoleActive(w, t, u))
  }

  /** No run becomes active, and an effect that keeps its generation keeps having no cleanup. */
  lemma AloneKept(w: EWorld, w': EWorld)
    requires AloneInv(w) && OwnInv(w') && |w.runs| <= |w'.runs|
    requires forall t :: 0 <= t < |w.runs| ==>
             SameInstance(w'.runs[t], w.runs[t]) && (Active(w'.runs[t]) ==> Active(w.runs[t]))
    requires forall t :: |w.runs| <= t < |w'.runs| ==> !Active(w'.runs[t])
    requires forall e: nat :: Generation(w.g, e) <= Generation(w'.g, e)
    requires forall e ::
               IsEffect(w.g.nodes, e) && Generation(w'.g, e) == Generation(w.g, e) && w.g.nodes[e].cleanup == None ==>
               IsEffect(w'.g.nodes, e) && w'.g.nodes[e].cleanup == None
    ensures AloneInv(w')
  {
    forall t: nat ensures RunAlone(w', t) {
      assert RunAlone(w, t) && RunOwns(w, t);
      if t < |w.runs| {
        assert BodyOk(w, Handle(w.runs[t].id, w.runs[t].gen));
      }
    }
    forall t: nat, u: nat ensures SoleActive(w', t, u) {
      assert SoleActive(w, t, u);
    }
  }

  lemma BeginAlone(w: EWorld, t0: nat)
    requires AloneInv(w) && CanDo(w, RunStarts(t0)) && Orderly(w, RunStarts(t0)) && OwnInv(BeginRun(w, t0))
    ensures AloneInv(BeginRun(w, t0))
  {
    var w' := BeginRun(w, t0);
    var r := w.runs[t0];
    assert RunOwns(w, t0) && BodyOk(w, Handle(r.id, r.gen));
    forall t: nat ensures RunAlone(w', t) {
      assert RunAlone(w, t);
    }
    forall t: nat, u: nat ensures SoleActive(w', t, u) {
      assert SoleActive(w, t, u);
    }
  }

  lemma EndAlone(w: EWorld, t0: nat, b: bool)
    requires AloneInv(w) && CanDo(w, RunFinishes(t0, b)) && OwnInv(EndRun(w, t0, b))
    ensures AloneInv(EndRun(w, t0, b))
  {
    var w' := EndRun(w, t0, b);
    forall t: nat ensures RunAlone(w', t) {
      assert RunAlone(w, t) && SoleActive(w, t, t0);
    }
    forall t: nat, u: nat ensures SoleActive(w', t, u) {
      assert SoleActive(w, t, u);
    }
  }

  lemma DisposeAlone(w: EWorld, h: Handle, kind: Kind, w': EWorld)
    requires AloneInv(w) && OwnInv(w') && w'.g == AfterDispose(w.g, h, kind) && w'.runs == w.runs
    ensures AloneInv(w')
  {
    DisposeKeepsEffects(w.g, h, kind);
    DisposeKeepsPartition(w.g, h, kind);
    AloneKept(w, w');
  }

  lemma MakeAlone(w: EWorld, a: EAction)
    requires AloneInv(w) && CanDo(w, a) && (a.MakeOther? || a.MakeEffect?) && OwnInv(Do(w, a))
    ensures AloneInv(Do(w, a))
  {
    var n := if a.MakeOther? then a.node else FreshEffect(a.body);
    NewNodeIds(w.g, n);
    assert Do(w, a).g.nodes == w.g.nodes[NewNode(w.g, n).1 := n];
    AloneKept(w, Do(w, a));
  }

  lemma QuietAlone(w: EWorld, a: EAction)
    requires AloneInv(w) && CanDo(w, a) && OwnInv(Do(w, a))
    requires !a.MakeOther? && !a.MakeEffect? && !a.DisposeOther? && !a.DisposeOne? && !a.RunStarts? && !a.RunFinishes?
    ensures AloneInv(Do(w, a))
  {
    AloneKept(w, Do(w, a));
  }

  lemma AloneStep(w: EWorld, a: EAction)
    requires AloneInv(w) && CanDo(w, a) && Orderly(w, a)
    ensures AloneInv(Do(w, a))
  {
    OwnStep(w, a);
    match a
    case MakeOther(_) => MakeAlone(w, a);
    case MakeEffect(_) => MakeAlone(w, a);
    case DisposeOther(h, kind) => DisposeAlone(w, h, kind, Do(w, a));
    case DisposeOne(h) => DisposeAlone(w, h, EffectKind, Do(w, a));
    case RunStarts(t) => BeginAlone(w, t);
    case RunFinishes(t, b) => EndAlone(w, t, b);
    case _ => QuietAlone(w, a);
  }

  ghost predicate IsOrderlySchedule(ws: seq<EWorld>, acts: seq<EAction>) {
    IsSchedule(ws, acts) && forall i :: 0 <= i < |acts| ==> CanDo(ws[i], acts[i]) && Orderly(ws[i], acts[i])
  }

  lemma {:induction false} AloneReachable(ws: seq<EWorld>, acts: seq<EAction>, i: nat)
    requires IsOrderlySchedule(ws, acts) && i < |ws|
    ensures AloneInv(ws[i])
    decreases i
  {
    if i > 0 {
      AloneReachable(ws, acts, i - 1);
      AloneStep(ws[i - 1], acts[i - 1]);
    }
  }

  /**
   The two disciplines are enough: no finish of an orderly schedule loses a cleanup, so every
   cleanup that the runs of an effect returned has been called once the effect is over.
   */
  lemma OrderlyLosesNothing(ws: seq<EWorld>, acts: seq<EAction>, i: nat, t: nat)
    requires IsOrderlySchedule(ws, acts) && i < |ws| && t < |ws[i].runs|
    ensures !LostBefore(ws, acts, i, t)
    ensures Over(ws[i], ws[i].runs[t].id, ws[i].runs[t].gen) && ws[i].runs[t].returned ==> t in ws[i].called
  {
    forall k | 0 <= k < i ensures !Loses(ws[k], acts[k], t) {
      AloneReachable(ws, acts, k);
      if acts[k].RunFinishes? {
        assert RunAlone(ws[k], acts[k].t);
      }
    }
    CleanupExactlyOnce(ws, acts, i, t);
  }

  // ---- schedules that lose or misplace a cleanup -----------------------------------------

  /** Fetch an effect's body, dispose it, let a new effect reuse the id, then capture the generation. */
  function AliasSchedule(): seq<EAction> {
    StartActions() + FetchActions() + ReuseActions() + CaptureActions() + RunActions()
  }

  function StartActions(): seq<EAction> {
    [MakeEffect(0), StartFlush]
  }

  function FetchActions(): seq<EAction> {
    [FlushCheck(0), FlushClear(0), FlushFetch(0)]
  }

  function ReuseActions(): seq<EAction> {
    [DisposeOne(Handle(0, 0)), MakeEffect(1)]
  }

  function CaptureActions(): seq<EAction> {
    [FlushCapture(0), FlushSpawn(0)]
  }

  function RunActions(): seq<EAction> {
    [RunStarts(0), RunFinishes(0, true)]
  }

  lemma JoinFragments(ws: seq<EWorld>, acts: seq<EAction>, vs: seq<EWorld>, bcts: seq<EAction>)
      returns (us: seq<EWorld>)
    requires IsFragment(ws, acts) && IsFragment(vs, bcts) && ws[|ws| - 1] == vs[0]
    ensures IsFragment(us, acts + bcts) && us[0] == ws[0] && us[|us| - 1] == vs[|vs| - 1]
  {
    us := ws + vs[1..];
    forall i | 0 <= i < |acts + bcts|
      ensures CanDo(us[i], (acts + bcts)[i]) && us[i + 1] == Do(us[i], (acts + bcts)[i])
    {
      if i < |acts| {
        assert us[i] == ws[i] && us[i + 1] == ws[i + 1];
      } else {
        assert us[i] == vs[i - |acts|] && us[i + 1] == vs[i + 1 - |acts|];
      }
    }
  }

  const MADE_A: EWorld :=
    EWorld(Graph(map[0 := Effect(0, None, [], true)], [0], 1, [], 0, {}, [0], {0}), [], [], [], [], {0},
        map[Handle(0, 0) := 0], [])

  const STARTED: EWorld :=
    MADE_A.(g := MADE_A.g.(pending := [], scheduled := {}), flushes := [Flush([0], Idle)])

  const FETCHED_A: EWorld :=
    EWorld(Graph(map[0 := Effect(0, None, [], false)], [0], 1, [], 0, {}, [], {}),
           [Flush([0], Fetched(0, 0))], [], [], [], {0}, map[Handle(0, 0) := 0], [])

  const REUSED_BY_B: EWorld :=
    EWorld(Graph(map[0 := Effect(1, None, [], true)], [1], 1, [], 0, {}, [0], {0}),
           [Flush([0], Fetched(0, 0))], [], [], [], {0}, map[Handle(0, 0) := 0, Handle(0, 1) := 1], [])

  lemma AliasMakes()
    ensures Do(QUIESCENT, MakeEffect(0)) == MADE_A
  {
    var g := NewNode(EMPTY_GRAPH, FreshEffect(0)).0;
    assert g == Graph(map[0 := Effect(0, None, [], true)], [0], 1, [], 0, {}, [], {});
    assert Schedule(g, 0) == MADE_A.g;
  }

  const CAPTURED: EWorld :=
    REUSED_BY_B.(flushes := [Flush([], Idle)], runs := [EffectRun(0, 1, 0, Spawned, false)], place := [Nowhere],
        owed := {})

  const ALIASED: EWorld :=
    CAPTURED.(g := CAPTURED.g.(nodes := map[0 := Effect(1, Some(0), [], true)]),
              runs := [EffectRun(0, 1, 0, Ended, true)], place := [InNode])

  lemma AliasStarts() returns (ws: seq<EWorld>)
    ensures IsFragment(ws, StartActions()) && ws[0] == QUIESCENT && ws[|ws| - 1] == STARTED
  {
    AliasMakes();
    ws := [QUIESCENT, MADE_A, STARTED];
  }

  lemma AliasFetches() returns (ws: seq<EWorld>)
    ensures IsFragment(ws, FetchActions()) && ws[0] == STARTED && ws[|ws| - 1] == FETCHED_A
  {
    var w3 := STARTED.(flushes := [Flush([0], Checked)]);
    assert w3 == Do(STARTED, FlushCheck(0));
    var w4 := FETCHED_A.(flushes := [Flush([0], Cleared)]);
    assert w4 == Do(w3, FlushClear(0));
    ws := [STARTED, w3, w4, FETCHED_A];
  }

  const DROPPED_A: EWorld := FETCHED_A.(g := Graph(map[], [1], 1, [0], 0, {}, [], {}), owed := {})

  lemma AliasDrops()
    ensures DropEffect(FETCHED_A, Handle(0, 0)) == DROPPED_A
  {
    assert DisposeEffect(FETCHED_A.g, Handle(0, 0)).0 == DROPPED_A.g;
  }

  lemma AliasRemakes()
    ensures CreateEffect(DROPPED_A, 1) == REUSED_BY_B
  {
    var g := NewNode(DROPPED_A.g, FreshEffect(1)).0;
    assert g == REUSED_BY_B.g.(pending := [], scheduled := {});
    assert Schedule(g, 0) == REUSED_BY_B.g;
  }

  lemma AliasReuses() returns (ws: seq<EWorld>)
    ensures IsFragment(ws, ReuseActions()) && ws[0] == FETCHED_A && ws[|ws| - 1] == REUSED_BY_B
  {
    AliasDrops();
    AliasRemakes();
    ws := [FETCHED_A, DROPPED_A, REUSED_BY_B];
  }

  lemma AliasCaptures() returns (ws: seq<EWorld>)
    ensures IsFragment(ws, CaptureActions()) && ws[0] == REUSED_BY_B && ws[|ws| - 1] == CAPTURED
  {
    var w8 := REUSED_BY_B.(flushes := [Flush([0], Captured(0, 1))]);
    assert w8 == Do(REUSED_BY_B, FlushCapture(0));
    var w9 := Do(w8, FlushSpawn(0));
    assert w8.flushes[0].queue[1..] == [];
    assert w9.runs == CAPTURED.runs && w9.place == CAPTURED.place && w9.flushes == CAPTURED.flushes;
    assert w9.owed == {};
    ws := [REUSED_BY_B, w8, w9];
  }

  lemma AliasRuns() returns (ws: seq<EWorld>)
    ensures IsFragment(ws, RunActions()) && ws[0] == CAPTURED && ws[|ws| - 1] == ALIASED
  {
    var w10 := CAPTURED.(runs := [EffectRun(0, 1, 0, InBody, false)]);
    assert w10 == Do(CAPTURED, RunStarts(0));
    assert ALIASED == Do(w10, RunFinishes(0, true));
    ws := [CAPTURED, w10, ALIASED];
  }

  /** Inside the window a run of the disposed effect leaves its cleanup in the node of the new one. */
  lemma CaptureWindowAliases() returns (ws: seq<EWorld>)
    ensures IsSchedule(ws, AliasSchedule())
    ensures
      var w := ws[|ws| - 1];
      && |w.runs| == 1 && w.runs[0].body == 0
      && w.g.nodes == map[0 := Effect(1, Some(0), [], true)]
      && w.bodies == map[Handle(0, 0) := 0, Handle(0, 1) := 1]
  {
    var a := AliasStarts();
    var b := AliasFetches();
    var c := AliasReuses();
    var d := AliasCaptures();
    var e := AliasRuns();
    var ab := JoinFragments(a, StartActions(), b, FetchActions());
    var abc := JoinFragments(ab, StartActions() + FetchActions(), c, ReuseActions());
    var abcd := JoinFragments(abc, StartActions() + FetchActions() + ReuseActions(), d, CaptureActions());
    ws := JoinFragments(abcd, StartActions() + FetchActions() + ReuseActions() + CaptureActions(), e, RunActions());
  }

  /** Fetch an effect's body, dispose it, capture the generation of the vacant id, and run. */
  function VacantSchedule(): seq<EAction> {
    StartActions() + FetchActions() + [DisposeOne(Handle(0, 0))] + CaptureActions() + RunActions()
  }

  const CAPTURED_VACANT: EWorld :=
    DROPPED_A.(flushes := [Flush([], Idle)], runs := [EffectRun(0, 1, 0, Spawned, false)], place := [Nowhere])

  const VACATED: EWorld :=
    CAPTURED_VACANT.(runs := [EffectRun(0, 1, 0, Ended, true)], place := [InNode])

  lemma VacantCaptures() returns (ws: seq<EWorld>)
    ensures IsFragment(ws, CaptureActions()) && ws[0] == DROPPED_A && ws[|ws| - 1] == CAPTURED_VACANT
  {
    var w7 := DROPPED_A.(flushes := [Flush([0], Captured(0, 1))]);
    assert w7 == Do(DROPPED_A, FlushCapture(0));
    var w8 := Do(w7, FlushSpawn(0));
    assert w7.flushes[0].queue[1..] == [];
    assert w8.runs == CAPTURED_VACANT.runs && w8.place == CAPTURED_VACANT.place &&
        w8.flushes == CAPTURED_VACANT.flushes;
    ws := [DROPPED_A, w7, w8];
  }

  lemma VacantRuns() returns (ws: seq<EWorld>)
    ensures IsFragment(ws, RunActions()) && ws[0] == CAPTURED_VACANT && ws[|ws| - 1] == VACATED
  {
    var w9 := CAPTURED_VACANT.(runs := [EffectRun(0, 1, 0, InBody, false)]);
    assert w9 == Do(CAPTURED_VACANT, RunStarts(0));
    assert VACATED == Do(w9, RunFinishes(0, true));
    ws := [CAPTURED_VACANT, w9, VACATED];
  }

  /** Inside the window, with nobody at the id, the run's own cleanup is lost: returned, not called, held by nobody. */
  lemma VacantWindowLoses() returns (ws: seq<EWorld>)
    ensures IsSchedule(ws, VacantSchedule())
    ensures
      var w := ws[|ws| - 1];
      |w.runs| == 1 && w.runs[0].returned && w.g.nodes == map[] && w.called == [] && !Accounted(w, 0)
  {
    var a := AliasStarts();
    var b := AliasFetches();
    AliasDrops();
    var c := [FETCHED_A, DROPPED_A];
    assert IsFragment(c, [DisposeOne(Handle(0, 0))]);
    var d := VacantCaptures();
    var e := VacantRuns();
    var ab := JoinFragments(a, StartActions(), b, FetchActions());
    var abc := JoinFragments(ab, StartActions() + FetchActions(), c, [DisposeOne(Handle(0, 0))]);
    var abcd := JoinFragments(abc, StartActions() + FetchActions() + [DisposeOne(Handle(0, 0))], d, CaptureActions());
    ws := JoinFragments(abcd, StartActions() + FetchActions() + [DisposeOne(Handle(0, 0))] + CaptureActions(), e,
        RunActions());
  }

  /** Start a run, schedule and start a second one before it has finished, then finish both. */
  function OverlapSchedule(): seq<EAction> {
    StartActions() + FetchActions() + BeginFirst() + Again() + BeginSecond() + FinishBoth()
  }

  function BeginFirst(): seq<EAction> {
    CaptureActions() + [RunStarts(0)]
  }

  function Again(): seq<EAction> {
    [ScheduleOne(0), StartFlush, FlushCheck(1), FlushClear(1), FlushFetch(1)]
  }

  function BeginSecond(): seq<EAction> {
    [FlushCapture(1), FlushSpawn(1), RunStarts(1)]
  }

  function FinishBoth(): seq<EAction> {
    [RunFinishes(0, true), RunFinishes(1, true)]
  }

  const FIRST: EWorld :=
    FETCHED_A.(flushes := [Flush([], Idle)], runs := [EffectRun(0, 0, 0, InBody, false)], place := [Nowhere],
        owed := {})

  const REFETCHED: EWorld := FIRST.(flushes := [Flush([], Idle), Flush([0], Fetched(0, 0))], owed := {0})

  const BOTH: EWorld :=
    FIRST.(flushes := [Flush([], Idle), Flush([], Idle)],
           runs := [EffectRun(0, 0, 0, InBody, false), EffectRun(0, 0, 0, InBody, false)], place := [Nowhere, Nowhere])

  const OVERWRITTEN: EWorld :=
    BOTH.(g := BOTH.g.(nodes := map[0 := Effect(0, Some(1), [], false)]),
          runs := [EffectRun(0, 0, 0, Ended, true), EffectRun(0, 0, 0, Ended, true)], place := [InNode, InNode])

  const SPAWNED_FIRST: EWorld := FIRST.(runs := [EffectRun(0, 0, 0, Spawned, false)])

  lemma OverlapSpawns()
    ensures
      var w := FETCHED_A.(flushes := [Flush([0], Captured(0, 0))]);
      CanDo(w, FlushSpawn(0)) && Do(w, FlushSpawn(0)) == SPAWNED_FIRST
  {
    var w := FETCHED_A.(flushes := [Flush([0], Captured(0, 0))]);
    assert w.flushes[0].queue[1..] == [] && {0} - {0} == {};
  }

  lemma OverlapFirst() returns (ws: seq<EWorld>)
    ensures IsFragment(ws, BeginFirst()) && ws[0] == FETCHED_A && ws[|ws| - 1] == FIRST
  {
    var w6 := FETCHED_A.(flushes := [Flush([0], Captured(0, 0))]);
    assert w6 == Do(FETCHED_A, FlushCapture(0));
    OverlapSpawns();
    assert FIRST == Do(SPAWNED_FIRST, RunStarts(0));
    ws := [FETCHED_A, w6, SPAWNED_FIRST, FIRST];
  }

  const FORCED: EWorld :=
    FIRST.(g := FIRST.g.(nodes := map[0 := Effect(0, None, [], true)], pending := [0], scheduled := {0}), owed := {0})

  const REFLUSHED: EWorld :=
    FORCED.(g := FORCED.g.(pending := [], scheduled := {}), flushes := [Flush([], Idle), Flush([0], Idle)])

  lemma OverlapForces()
    ensures Do(FIRST, ScheduleOne(0)) == FORCED && Do(FORCED, StartFlush) == REFLUSHED
  {
    assert {} + {0} == {0} && [] + [0] == [0];
  }

  lemma OverlapRefetches()
    ensures
      var checked := REFLUSHED.(flushes := [Flush([], Idle), Flush([0], Checked)]);
      var cleared := REFETCHED.(flushes := [Flush([], Idle), Flush([0], Cleared)]);
      && CanDo(REFLUSHED, FlushCheck(1)) && Do(REFLUSHED, FlushCheck(1)) == checked
      && CanDo(checked, FlushClear(1)) && Do(checked, FlushClear(1)) == cleared
      && CanDo(cleared, FlushFetch(1)) && Do(cleared, FlushFetch(1)) == REFETCHED
  {
  }

  lemma OverlapAgain() returns (ws: seq<EWorld>)
    ensures IsFragment(ws, Again()) && ws[0] == FIRST && ws[|ws| - 1] == REFETCHED
  {
    OverlapForces();
    OverlapRefetches();
    ws := [FIRST, FORCED, REFLUSHED, REFLUSHED.(flushes := [Flush([], Idle), Flush([0], Checked)]),
           REFETCHED.(flushes := [Flush([], Idle), Flush([0], Cleared)]), REFETCHED];
  }

  lemma OverlapSecond() returns (ws: seq<EWorld>)
    ensures IsFragment(ws, BeginSecond()) && ws[0] == REFETCHED && ws[|ws| - 1] == BOTH
  {
    var w14 := REFETCHED.(flushes := [Flush([], Idle), Flush([0], Captured(0, 0))]);
    assert w14 == Do(REFETCHED, FlushCapture(1));
    assert w14.flushes[1].queue[1..] == [];
    var w15 := BOTH.(runs := [EffectRun(0, 0, 0, InBody, false), EffectRun(0, 0, 0, Spawned, false)]);
    assert w15 == Do(w14, FlushSpawn(1)) by {
      assert {0} - {0} == {};
    }
    assert BOTH == Do(w15, RunStarts(1));
    ws := [REFETCHED, w14, w15, BOTH];
  }

  lemma OverlapEnds() returns (ws: seq<EWorld>)
    ensures IsFragment(ws, FinishBoth()) && ws[0] == BOTH && ws[|ws| - 1] == OVERWRITTEN
  {
    var w17 := BOTH.(g := BOTH.g.(nodes := map[0 := Effect(0, Some(0), [], false)]),
                     runs := [EffectRun(0, 0, 0, Ended, true), EffectRun(0, 0, 0, InBody, false)],
                     place := [InNode, Nowhere]);
    assert w17 == Do(BOTH, RunFinishes(0, true));
    assert OVERWRITTEN == Do(w17, RunFinishes(1, true));
    ws := [BOTH, w17, OVERWRITTEN];
  }

  /** Overlapping runs lose the cleanup of the first: it was returned, is never called, and nobody holds it. */
  lemma OverlapLoses() returns (ws: seq<EWorld>)
    ensures IsSchedule(ws, OverlapSchedule())
    ensures
      var w := ws[|ws| - 1];
      |w.runs| == 2 && w.runs[0].returned && 0 !in w.called && !Accounted(w, 0)
  {
    var a := AliasStarts();
    var b := AliasFetches();
    var c := OverlapFirst();
    var d := OverlapAgain();
    var e := OverlapSecond();
    var f := OverlapEnds();
    var ab := JoinFragments(a, StartActions(), b, FetchActions());
    var abc := JoinFragments(ab, StartActions() + FetchActions(), c, BeginFirst());
    var abcd := JoinFragments(abc, StartActions() + FetchActions() + BeginFirst(), d, Again());
    var abcde := JoinFragments(abcd, StartActions() + FetchActions() + BeginFirst() + Again(), e, BeginSecond());
    ws := JoinFragments(abcde, StartActions() + FetchActions() + BeginFirst() + Again() + BeginSecond(), f,
        FinishBoth());
  }
}
