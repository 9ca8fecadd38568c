/** What the invariant means for whole executions: fresh caches, no glitches, no stale publications. */
module Freshness {
  import opened Prelude
  import opened Graph
  import opened Reactor
  import opened ReactorInv
  import opened ReactorSteps

  /** Where invalidations still have to start: captured root lists and readers of batched cells. */
  ghost function PendingRoots(w: World): set<Id> {
    (set k, d | 0 <= k < |w.walks| && d in w.walks[k] :: d)
    + (set k, d | 0 <= k < |w.drains| && d in w.drains[k].roots :: d)
    + (set s, d | s in w.g.nodes && IsBatched(w, s) && d in Dependents(w.g.nodes[s]) :: d)
  }

  /** Slots no pending invalidation can reach over the current edges. */
  ghost predicate Settled(w: World, d: Id) {
    IsComputed(w.g.nodes, d) && d !in Cone(w.g.nodes, PendingRoots(w))
  }

  lemma ReaderIsPending(w: World, s: Id, d: Id)
    requires Edge(w.g.nodes, s, d) && SourceDirty(w, s, d) && IsComputed(w.g.nodes, d)
    ensures !Settled(w, d)
  {
    assert d in PendingRoots(w);
    ConeRoot(w.g.nodes, PendingRoots(w), d);
  }

  lemma ReaderIsBehind(w: World, x: Id, d: Id)
    requires Edge(w.g.nodes, x, d) && IsComputed(w.g.nodes, x) && Settled(w, d)
    ensures Settled(w, x)
  {
    if !Settled(w, x) {
      ConeStep(w.g.nodes, PendingRoots(w), x, d);
    }
  }

  /** Evidence is honest: a doomed slot lies in the cone of something pending. */
  lemma {:induction false} DoomedIsPending(w: World, d: Id)
    requires Doomed(w, d)
    ensures !Settled(w, d)
    decreases Stamp(w, d)
  {
    var i := EvidenceOf(w, d);
    var e := w.pub[d].trace[i];
    assert TraceEntryOk(w, d, e);
    if e.SourceRead? {
      ReaderIsPending(w, e.src, d);
    } else {
      DoomedIsPending(w, e.slot);
      if Settled(w, d) {
        ReaderIsBehind(w, e.slot, d);
      }
    }
  }

  /** Replaying a current trace from position `k` reaches the recorded value. */
  lemma {:induction false} ReplayCurrent(w: World, d: Id, k: nat) returns (fuel: nat)
    requires Inv(w) && Valid(w, d) && AllCurrent(w, d) && k <= |w.pub[d].trace|
    ensures EvalFrom(w.g.nodes, w.g.nodes[d].compute, w.pub[d].trace[..k], fuel) == Some(w.pub[d].value)
    decreases Stamp(w, d), |w.pub[d].trace| - k
  {
    assert PubOk(w, d);
    var t, compute := w.pub[d].trace, w.g.nodes[d].compute;
    if k == |t| {
      assert t[..k] == t;
      fuel := 1;
    } else {
      var rest := ReplayCurrent(w, d, k + 1);
      assert Linked(w, d, t[k]) && Matches(w, t[k]);
      var need := 0;
      if t[k].Awaited? {
        need := EvalCurrent(w, t[k].slot);
      }
      ReplayStep(w.g.nodes, compute, t, k, rest, need, w.pub[d].value);
      fuel := need + rest + 1;
    }
  }

  /** One observation that is what evaluation from scratch makes too. */
  ghost predicate Answers(nodes: Nodes, e: Entry, need: nat) {
    match e
    case SourceRead(s, v) => IsSource(nodes, s) && nodes[s].value == v
    case Declared(x) => IsComputed(nodes, x)
    case Awaited(x, v) => EvalNode(nodes, x, need) == Some(v)
  }

  lemma ReplayStep(nodes: Nodes, compute: Compute, t: seq<Entry>, k: nat, rest: nat, need: nat, v: Value)
    requires k < |t| && Scripted(compute, t) && DeclaresAwaited(t) && Answers(nodes, t[k], need)
    requires EvalFrom(nodes, compute, t[..k + 1], rest) == Some(v)
    ensures EvalFrom(nodes, compute, t[..k], need + rest + 1) == Some(v)
  {
    assert Follows(compute(t[..k]), t[k]);
    assert t[..k + 1] == t[..k] + [t[k]];
    if t[k].Awaited? {
      EvalNodeMonotone(nodes, t[k].slot, need, need + rest);
    }
    EvalFromMonotone(nodes, compute, t[..k + 1], rest, need + rest);
  }

  lemma {:induction false} EvalCurrent(w: World, d: Id) returns (fuel: nat)
    requires Inv(w) && Valid(w, d) && !Doomed(w, d)
    ensures EvalNode(w.g.nodes, d, fuel) == Some(w.pub[d].value)
    decreases Stamp(w, d), |w.pub[d].trace| + 1
  {
    assert PubOk(w, d);
    var f := ReplayCurrent(w, d, 0);
    assert w.pub[d].trace[..0] == [];
    fuel := f + 1;
  }

  lemma ValidIsFresh(w: World, d: Id, v: Value)
    requires Inv(w) && ValueOk(w, d, v) && Settled(w, d)
    ensures FromScratch(w.g.nodes, d, v)
  {
    if Doomed(w, d) {
      DoomedIsPending(w, d);
    }
    var fuel := EvalCurrent(w, d);
  }

  lemma {:induction false} Reachable(ws: seq<World>, acts: seq<Action>, i: nat)
    requires IsExecution(ws, acts) && i < |ws|
    ensures Inv(ws[i])
    decreases i
  {
    if i > 0 {
      Reachable(ws, acts, i - 1);
      StepKeeps(ws[i - 1], acts[i - 1]);
    }
  }

  /**
   In every interleaving, a resolved slot outside the cone of what is still pending holds
   the value its compute has from scratch over the current sources.
   */
  lemma CacheIsFresh(ws: seq<World>, acts: seq<Action>, i: nat, d: Id)
    requires IsExecution(ws, acts) && i < |ws|
    requires Settled(ws[i], d) && ws[i].g.nodes[d].state.Resolved?
    ensures ws[i].g.nodes[d].cached.Some?
    ensures FromScratch(ws[i].g.nodes, d, ws[i].g.nodes[d].cached.value)
  {
    Reachable(ws, acts, i);
    assert SlotOk(ws[i], d);
    ValidIsFresh(ws[i], d, ws[i].g.nodes[d].cached.value);
  }

  /** One observation agrees with the sources as they are now. */
  ghost predicate AgreesNow(w: World, e: Entry) {
    match e
    case SourceRead(s, v) => IsSource(w.g.nodes, s) && w.g.nodes[s].value == v
    case Declared(_) => true
    case Awaited(x, v) => FromScratch(w.g.nodes, x, v)
  }

  /**
   No glitch: a run that has not been superseded, on a settled slot, has never mixed two
   states of the world. All its observations agree with the current sources at once.
   */
  lemma RunsSeeOneWorld(ws: seq<World>, acts: seq<Action>, i: nat, r: nat, k: nat)
    requires IsExecution(ws, acts) && i < |ws|
    requires IsRunning(ws[i], r) && Current(ws[i], r) && Settled(ws[i], ws[i].runs[r].node)
    requires k < |ws[i].runs[r].seen|
    ensures AgreesNow(ws[i], ws[i].runs[r].seen[k])
  {
    var w := ws[i];
    Reachable(ws, acts, i);
    assert RunOk(w, r);
    var d, e := w.runs[r].node, w.runs[r].seen[k];
    assert RunEntryOk(w, d, e);
    match e
    case Declared(_) =>
    case SourceRead(s, v) =>
      if SourceDirty(w, s, d) {
        ReaderIsPending(w, s, d);
      }
    case Awaited(x, v) =>
      ReaderIsBehind(w, x, d);
      ValidIsFresh(w, x, v);
  }

  /** The slot an in-flight computation belongs to, and the revision it runs for, always agree. */
  lemma InFlightIsCurrent(ws: seq<World>, acts: seq<Action>, i: nat, d: Id)
    requires IsExecution(ws, acts) && i < |ws|
    requires IsComputed(ws[i].g.nodes, d) && ws[i].g.nodes[d].state.Computing?
    ensures ws[i].g.nodes[d].state.rev == ws[i].g.nodes[d].revision
    ensures ws[i].g.nodes[d].notifier.Some?
    ensures IsRunning(ws[i], ws[i].g.nodes[d].notifier.value) && Current(ws[i], ws[i].g.nodes[d].notifier.value)
  {
    Reachable(ws, acts, i);
    assert SlotOk(ws[i], d);
  }

  /** At most one unpublished run is at a slot's current revision. */
  lemma OneLiveRun(ws: seq<World>, acts: seq<Action>, i: nat, r: nat, r': nat)
    requires IsExecution(ws, acts) && i < |ws|
    requires IsRunning(ws[i], r) && Current(ws[i], r)
    requires IsRunning(ws[i], r') && Current(ws[i], r') && ws[i].runs[r].node == ws[i].runs[r'].node
    ensures r == r'
  {
    Reachable(ws, acts, i);
    assert RunOk(ws[i], r) && RunOk(ws[i], r');
  }

  /** A superseded run changes no node when it completes; a current one always publishes. */
  lemma StaleNeverPublishes(ws: seq<World>, acts: seq<Action>, i: nat, r: nat, tracked: seq<Id>)
    requires IsExecution(ws, acts) && i < |acts| && acts[i] == Complete(r, tracked)
    ensures !Current(ws[i], r) ==> ws[i + 1].g == ws[i].g
    ensures Current(ws[i], r) ==>
              && IsComputed(ws[i + 1].g.nodes, ws[i].runs[r].node)
              && ws[i + 1].g.nodes[ws[i].runs[r].node].state.Resolved?
              && ws[i + 1].g.nodes[ws[i].runs[r].node].cached == Some(NextOp(ws[i], r).result)
  {
    Reachable(ws, acts, i);
    assert RunOk(ws[i], r);
    assert Enabled(ws[i], acts[i]) && ws[i + 1] == Next(ws[i], acts[i]);
    RewireFacts(ws[i].g.nodes, ws[i].runs[r].node, tracked);
  }
}
