/**
 The effect queue and the life of an effect run, interleaved at lock granularity: scheduling,
 any number of concurrent flushes, spawned runs that may outlive their effect, and disposal.
 Aborts are never relied on: an aborted run may still take every step it had left.
 */
module Effects {
  import opened Prelude
  import opened Graph
  import opened Edges
  import opened Lifecycle

  /** How far a flush has got with the effect at the head of its local list. */
  datatype Stage = Idle | Checked | Cleared | Fetched(body: nat, at: nat) | Captured(body: nat, gen: nat)

  datatype Flush = Flush(queue: seq<Id>, stage: Stage)

  datatype RunStage = Spawned | Holding(token: nat) | InBody | HoldingOwn | Ended

  /** One run of an effect body. Its cleanup, if it returns one, is named by the run's index. */
  datatype EffectRun = EffectRun(id: Id, gen: nat, body: nat, stage: RunStage, returned: bool)

  /** History: where the cleanup of a run currently is. */
  datatype Place = Nowhere | InNode | WithRun(run: nat) | WithSelf | WithDisposer | Called

  /** `disposers` hold cleanups they have taken and not called yet; `owed`, `bodies` and `place` are history. */
  datatype EWorld = EWorld(
    g: Graph,
    flushes: seq<Flush>,
    runs: seq<EffectRun>,
    disposers: seq<nat>,
    called: seq<nat>,
    owed: set<Id>,
    bodies: map<Handle, nat>,
    place: seq<Place>)

  const QUIESCENT: EWorld := EWorld(EMPTY_GRAPH, [], [], [], [], {}, map[], [])

  datatype EAction =
    | MakeOther(node: Node)
    | MakeEffect(body: nat)
    | DisposeOther(h: Handle, kind: Kind)
    | DisposeOne(h: Handle)
    | DisposerCalls(k: nat)
    | ScheduleOne(id: Id)
    | StartFlush
    | FlushCheck(k: nat)
    | FlushClear(k: nat)
    | FlushFetch(k: nat)
    | FlushCapture(k: nat)
    | FlushSpawn(k: nat)
    | RunStarts(t: nat)
    | RunCallsPrior(t: nat)
    | RunFinishes(t: nat, returns_: bool)
    | RunCallsOwn(t: nat)
    | RunAborted(t: nat)

  ghost predicate HeadAt(w: EWorld, k: nat) {
    k < |w.flushes| && w.flushes[k].queue != []
  }

  ghost predicate RunAt(w: EWorld, t: nat) {
    t < |w.runs|
  }

  ghost predicate CanDo(w: EWorld, a: EAction) {
    match a
    case MakeOther(n) => !n.Effect?
    case MakeEffect(_) => true
    case DisposeOther(_, kind) => kind != EffectKind
    case DisposeOne(_) => true
    case DisposerCalls(k) => k < |w.disposers|
    case ScheduleOne(_) => true
    case StartFlush => true
    case FlushCheck(k) => HeadAt(w, k) && w.flushes[k].stage.Idle?
    case FlushClear(k) => HeadAt(w, k) && w.flushes[k].stage.Checked?
    case FlushFetch(k) => HeadAt(w, k) && w.flushes[k].stage.Cleared?
    case FlushCapture(k) => HeadAt(w, k) && w.flushes[k].stage.Fetched?
    case FlushSpawn(k) => HeadAt(w, k) && w.flushes[k].stage.Captured?
    case RunStarts(t) => RunAt(w, t) && w.runs[t].stage.Spawned?
    case RunCallsPrior(t) => RunAt(w, t) && w.runs[t].stage.Holding? && w.runs[t].stage.token < |w.place|
    case RunFinishes(t, _) => RunAt(w, t) && w.runs[t].stage.InBody? && t < |w.place|
    case RunCallsOwn(t) => RunAt(w, t) && w.runs[t].stage.HoldingOwn? && t < |w.place|
    case RunAborted(t) => RunAt(w, t) && (w.runs[t].stage.Spawned? || w.runs[t].stage.InBody?)
  }

  function SetStage(w: EWorld, k: nat, s: Stage): EWorld
    requires k < |w.flushes|
  {
    w.(flushes := w.flushes[k := w.flushes[k].(stage := s)])
  }

  function Pop(w: EWorld, k: nat): EWorld
    requires k < |w.flushes| && w.flushes[k].queue != []
  {
    w.(flushes := w.flushes[k := Flush(w.flushes[k].queue[1..], Idle)])
  }

  function SetRun(w: EWorld, t: nat, s: RunStage): EWorld
    requires t < |w.runs|
  {
    w.(runs := w.runs[t := w.runs[t].(stage := s)])
  }

  function Move(w: EWorld, token: nat, p: Place): EWorld {
    if token < |w.place| then w.(place := w.place[token := p]) else w
  }

  function SetCleanup(g: Graph, id: Id, c: Option<nat>): Graph {
    if IsEffect(g.nodes, id) then g.(nodes := g.nodes[id := g.nodes[id].(cleanup := c)]) else g
  }

  function CreateEffect(w: EWorld, body: nat): EWorld {
    var (g, id) := NewNode(w.g, FreshEffect(body));
    w.(g := Schedule(g, id), owed := w.owed + {id}, bodies := w.bodies[Handle(id, Generation(w.g, id)) := body])
  }

  /** `dispose_async_effect`: the stored cleanup leaves the graph with the disposer. */
  function DropEffect(w: EWorld, h: Handle): EWorld {
    var (g, cleanup) := DisposeEffect(w.g, h);
    var w1 := w.(g := g, owed := if Names(w.g, h, EffectKind) then w.owed - {h.id} else w.owed);
    if cleanup.Some? then Move(w1.(disposers := w.disposers + [cleanup.value]), cleanup.value, WithDisposer) else w1
  }

  /** The first section of a spawned run: take the cleanup of the previous one. */
  function BeginRun(w: EWorld, t: nat): EWorld
    requires t < |w.runs|
  {
    var run := w.runs[t];
    if Generation(w.g, run.id) == run.gen && IsEffect(w.g.nodes, run.id) && w.g.nodes[run.id].cleanup.Some? then
      var c := w.g.nodes[run.id].cleanup.value;
      Move(SetRun(w.(g := SetCleanup(w.g, run.id, None)), t, Holding(c)), c, WithRun(t))
    else SetRun(w, t, InBody)
  }

  /** The last section: store the cleanup behind a generation check, or keep it to call it. */
  function EndRun(w: EWorld, t: nat, returns_: bool): EWorld
    requires t < |w.runs|
  {
    var run := w.runs[t];
    var w1 := w.(runs := w.runs[t := run.(stage := Ended, returned := returns_)]);
    if Generation(w.g, run.id) == run.gen then
      var w2 := w1.(g := SetCleanup(w.g, run.id, if returns_ then Some(t) else None));
      if returns_ then Move(w2, t, InNode) else w2
    else if returns_ then Move(SetRun(w1, t, HoldingOwn), t, WithSelf)
    else w1
  }

  function Do(w: EWorld, a: EAction): EWorld
    requires CanDo(w, a)
  {
    match a
    case MakeOther(n) => w.(g := NewNode(w.g, n).0)
    case MakeEffect(b) => CreateEffect(w, b)
    case DisposeOther(h, kind) => w.(g := AfterDispose(w.g, h, kind))
    case DisposeOne(h) => DropEffect(w, h)
    case DisposerCalls(k) =>
      Move(w.(disposers := w.disposers[..k] + w.disposers[k + 1..], called := w.called + [w.disposers[k]]),
           w.disposers[k], Called)
    case ScheduleOne(id) =>
      w.(g := Schedule(w.g, id), owed := if IsEffect(w.g.nodes, id) then w.owed + {id} else w.owed)
    case StartFlush => w.(g := TakePending(w.g).0, flushes := w.flushes + [Flush(w.g.pending, Idle)])
    case FlushCheck(k) =>
      var e := w.flushes[k].queue[0];
      if IsEffect(w.g.nodes, e) && w.g.nodes[e].forceRun then SetStage(w, k, Checked) else Pop(w, k)
    case FlushClear(k) =>
      var e := w.flushes[k].queue[0];
      SetStage(w.(g := if IsEffect(w.g.nodes, e)
                       then w.g.(nodes := w.g.nodes[e := w.g.nodes[e].(forceRun := false)]) else w.g), k, Cleared)
    case FlushFetch(k) =>
      var e := w.flushes[k].queue[0];
      if IsEffect(w.g.nodes, e) then SetStage(w, k, Fetched(w.g.nodes[e].body, Generation(w.g, e))) else Pop(w, k)
    case FlushCapture(k) =>
      SetStage(w, k, Captured(w.flushes[k].stage.body, Generation(w.g, w.flushes[k].queue[0])))
    case FlushSpawn(k) =>
      var e := w.flushes[k].queue[0];
      Pop(w.(runs := w.runs + [EffectRun(e, w.flushes[k].stage.gen, w.flushes[k].stage.body, Spawned, false)],
             place := w.place + [Nowhere], owed := w.owed - {e}), k)
    case RunStarts(t) => BeginRun(w, t)
    case RunCallsPrior(t) =>
      Move(SetRun(w.(called := w.called + [w.runs[t].stage.token]), t, InBody), w.runs[t].stage.token, Called)
    case RunFinishes(t, r) => EndRun(w, t, r)
    case RunCallsOwn(t) => Move(SetRun(w.(called := w.called + [t]), t, Ended), t, Called)
    case RunAborted(t) => SetRun(w, t, Ended)
  }

  /** `ws` are the worlds that `acts` lead through. */
  ghost predicate IsFragment(ws: seq<EWorld>, acts: seq<EAction>) {
    && |ws| == |acts| + 1
    && forall i :: 0 <= i < |acts| ==> CanDo(ws[i], acts[i]) && ws[i + 1] == Do(ws[i], acts[i])
  }

  ghost predicate IsSchedule(ws: seq<EWorld>, acts: seq<EAction>) {
    IsFragment(ws, acts) && ws[0] == QUIESCENT
  }
}
