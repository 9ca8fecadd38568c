/** Every action keeps the invariant. */
module ReactorSteps {
  import opened Prelude
  import opened Graph
  import opened Reactor
  import opened ReactorInv

  ghost function Slots(w: World): set<Id> {
    set d | d in w.g.nodes && w.g.nodes[d].Computed?
  }

  /** An action that moves no run and no slot: creation, writes, batching, effect edges. */
  ghost predicate Quiet(w: World, w': World) {
    && w'.runs == w.runs && w'.pub == w.pub && w'.clock == w.clock
    && Carries(w, w', Slots(w))
    && (forall d :: d in Slots(w) ==> EdgesKept(w, w', d) && SameSlot(w.g.nodes[d], w'.g.nodes[d]))
    && (forall d :: IsComputed(w'.g.nodes, d) && d !in Slots(w) ==> d !in w.g.nodes && w'.g.nodes[d].state.Empty?)
    && AllocOk(w')
  }

  lemma QuietKeeps(w: World, w': World)
    requires Inv(w) && Quiet(w, w')
    ensures Inv(w')
  {
    var keep := Slots(w);
    var none := w.g.nextId;
    var r0 := |w.runs|;
    assert none !in keep;
    assert Frames(w, w', keep, none, 0, r0, none);
    FramedInv(w, w', keep, none, 0, r0, none);
  }

  lemma MakeKeeps(w: World, n: Node)
    requires Inv(w) && (n.Computed? ==> n.state.Empty?)
    ensures Inv(w.(g := NewNode(w.g, n).0))
  {
    var w' := w.(g := NewNode(w.g, n).0);
    assert w'.g.nodes == w.g.nodes[w.g.nextId := n];
    QuietKeeps(w, w');
  }

  lemma RegisterIsQuiet(w: World, x: Id, d: Id)
    requires AllocOk(w)
    ensures Quiet(w, RegisterEdge(w, x, d))
  {
    RegisterFacts(w.g.nodes, x, d);
    var w' := RegisterEdge(w, x, d);
    forall c | c in w.g.nodes ensures SameButEdges(w.g.nodes[c], w'.g.nodes[c]) {
    }
  }

  lemma EffectReadsKeeps(w: World, e: Id, x: Id)
    requires Inv(w)
    ensures Inv(RegisterEdge(w, x, e))
  {
    RegisterIsQuiet(w, x, e);
    QuietKeeps(w, RegisterEdge(w, x, e));
  }

  /** Rewiring one owner leaves every edge into another node in place. */
  lemma RewireOthers(nodes: Nodes, owner: Id, tracked: seq<Id>, x: Id, d: Id)
    requires d != owner
    ensures Edge(UpdateDependencies(nodes, owner, tracked), x, d) <==> Edge(nodes, x, d)
  {
    if owner in nodes && !nodes[owner].Source? && x in nodes && !nodes[x].Effect? {
      EdgeRemoveFacts(nodes[x].dependents, owner);
    }
  }

  lemma EffectFinishesKeeps(w: World, e: Id, tracked: seq<Id>)
    requires Inv(w) && IsEffect(w.g.nodes, e)
    ensures Inv(w.(g := w.g.(nodes := UpdateDependencies(w.g.nodes, e, tracked))))
  {
    var w' := w.(g := w.g.(nodes := UpdateDependencies(w.g.nodes, e, tracked)));
    forall x, d | d in Slots(w) ensures Edge(w.g.nodes, x, d) ==> Edge(w'.g.nodes, x, d) {
      RewireOthers(w.g.nodes, e, tracked, x, d);
    }
    QuietKeeps(w, w');
  }

  lemma SetKeeps(w: World, s: Id, v: Value)
    requires Inv(w) && IsSource(w.g.nodes, s)
    ensures Inv(SetCell(w, s, v))
  {
    var w' := SetCell(w, s, v);
    if w' != w {
      assert forall k :: 0 <= k < |w.walks| ==> w'.walks[k] == w.walks[k];
      if w.g.batchDepth == 0 {
        assert w'.walks[|w.walks|] == w.g.nodes[s].dependents;
      }
      QuietKeeps(w, w');
    }
  }

  lemma EnterKeeps(w: World)
    requires Inv(w)
    ensures Inv(w.(g := EnterBatch(w.g)))
  {
    QuietKeeps(w, w.(g := EnterBatch(w.g)));
  }

  lemma LeaveKeeps(w: World)
    requires Inv(w) && w.g.batchDepth > 0
    ensures Inv(LeaveBatch(w))
  {
    var w' := LeaveBatch(w);
    assert forall k :: 0 <= k < |w.drains| ==> w'.drains[k] == w.drains[k];
    if w.g.batchDepth == 1 {
      assert w'.drains[|w.drains|] == Drain(w.g.batchedCells, []);
    }
    QuietKeeps(w, w');
  }

  lemma DrainCellKeeps(w: World, k: nat, s: Id)
    requires Inv(w) && k < |w.drains| && s in w.drains[k].cells
    ensures Inv(DrainOne(w, k, s))
  {
    var w' := DrainOne(w, k, s);
    assert forall i :: 0 <= i < |w.drains| && i != k ==> w'.drains[i] == w.drains[i];
    forall x, d | d in Slots(w) && IsSource(w.g.nodes, x) && Edge(w.g.nodes, x, d) && SourceDirty(w, x, d)
      ensures SourceDirty(w', x, d)
    {
      if InDrain(w, d) {
        var i :| 0 <= i < |w.drains| && d in w.drains[i].roots;
        assert d in w'.drains[i].roots;
      } else if IsBatched(w, x) && x !in w.g.batchedCells {
        var i :| 0 <= i < |w.drains| && x in w.drains[i].cells;
        if i == k && x == s {
          assert d in w'.drains[k].roots;
        } else {
          assert x in w'.drains[i].cells;
        }
      }
    }
    QuietKeeps(w, w');
  }

  lemma DropAtFacts<T>(s: seq<T>, k: nat, i: nat)
    requires k < |s| && i < |s| && i != k
    ensures s[i] in DropAt(s, k)
  {
    var j := if i < k then i else i - 1;
    assert DropAt(s, k)[j] == s[i];
  }

  lemma DrainDoneKeeps(w: World, k: nat)
    requires Inv(w) && k < |w.drains| && w.drains[k].cells == {}
    ensures Inv(FinishDrain(w, k))
  {
    var w' := FinishDrain(w, k);
    assert forall i :: 0 <= i < |w.walks| ==> w'.walks[i] == w.walks[i];
    forall x, d | d in Slots(w) && IsSource(w.g.nodes, x) && Edge(w.g.nodes, x, d) && SourceDirty(w, x, d)
      ensures SourceDirty(w', x, d)
    {
      if InDrain(w, d) {
        var i :| 0 <= i < |w.drains| && d in w.drains[i].roots;
        if i == k {
          assert w'.walks[|w.walks|] == w.drains[k].roots;
        } else {
          DropAtFacts(w.drains, k, i);
          var j :| 0 <= j < |w'.drains| && w'.drains[j] == w.drains[i];
          assert d in w'.drains[j].roots;
        }
      } else if IsBatched(w, x) && x !in w.g.batchedCells {
        var i :| 0 <= i < |w.drains| && x in w.drains[i].cells;
        DropAtFacts(w.drains, k, i);
        var j :| 0 <= j < |w'.drains| && w'.drains[j] == w.drains[i];
        assert x in w'.drains[j].cells;
      }
    }
    QuietKeeps(w, w');
  }

  lemma ClearKeeps(w: World, roots: seq<Id>)
    requires Inv(w)
    ensures Inv(w.(walks := w.walks + [roots]))
  {
    var w' := w.(walks := w.walks + [roots]);
    assert forall k :: 0 <= k < |w.walks| ==> w'.walks[k] == w.walks[k];
    QuietKeeps(w, w');
  }

  lemma WalkCarries(w: World, k: nat, keep: set<Id>)
    requires Inv(w) && k < |w.walks|
    requires keep == Slots(w) - Cone(w.g.nodes, Elems(w.walks[k]))
    ensures Carries(w, WalkOne(w, k), keep)
  {
    var w' := WalkOne(w, k);
    var roots := Elems(w.walks[k]);
    ConeIsClosed(w.g.nodes, roots);
    forall s, d | d in keep && IsSource(w.g.nodes, s) && SourceDirty(w, s, d) ensures SourceDirty(w', s, d) {
      if InWalk(w, d) {
        var i :| 0 <= i < |w.walks| && d in w.walks[i];
        assert i != k;
        DropAtFacts(w.walks, k, i);
        var j :| 0 <= j < |w'.walks| && w'.walks[j] == w.walks[i];
        assert d in w'.walks[j];
      }
    }
  }

  /** One frontier walk: every doomed slot it was owed to is emptied, the rest stand. */
  lemma WalkKeeps(w: World, k: nat)
    requires Inv(w) && k < |w.walks|
    ensures Inv(WalkOne(w, k))
  {
    var w' := WalkOne(w, k);
    var roots := Elems(w.walks[k]);
    ConeIsClosed(w.g.nodes, roots);
    var keep := Slots(w) - Cone(w.g.nodes, roots);
    var none := w.g.nextId;
    WalkCarries(w, k, keep);
    assert none !in keep;
    assert Rewires(w, w', keep, none, 0);
    assert Frames(w, w', keep, none, 0, |w.runs|, none);
    FramedInv(w, w', keep, none, 0, |w.runs|, none);
  }

  lemma SpawnFrames(w: World, d0: Id)
    requires Inv(w) && IsComputed(w.g.nodes, d0) && !w.g.nodes[d0].state.Computing?
    ensures Frames(w, SpawnRun(w, d0), Slots(w), w.g.nextId, 0, |w.runs|, d0)
    ensures AllocOk(SpawnRun(w, d0)) && HistoryOk(SpawnRun(w, d0))
  {
    assert w.g.nextId !in w.g.nodes;
    forall r | 0 <= r < |w.runs| && IsRunning(w, r) && Current(w, r) ensures w.runs[r].node != d0 {
      assert RunOk(w, r);
    }
  }

  lemma SpawnKeeps(w: World, d0: Id)
    requires Inv(w) && IsComputed(w.g.nodes, d0)
    ensures Inv(SpawnRun(w, d0))
  {
    var w' := SpawnRun(w, d0);
    if !w.g.nodes[d0].state.Computing? {
      SpawnFrames(w, d0);
      assert SlotOk(w, d0);
      if Valid(w', d0) && Doomed(w', d0) {
        var i := EvidenceOf(w', d0);
        assert Agree([], w'.pub[d0].trace, i);
      }
      FramedInv(w, w', Slots(w), w.g.nextId, 0, |w.runs|, d0);
    }
  }

  // ---- a run observes something ----------------------------------------------

  /** Only the private state of one running compute moves. */
  lemma RunMoves(w: World, w': World, r0: nat)
    requires HistoryOk(w) && AllocOk(w) && r0 < |w.runs| && |w'.runs| == |w.runs|
    requires w' == w.(runs := w'.runs) && w'.runs == w.runs[r0 := w'.runs[r0]]
    requires w'.runs[r0].node == w.runs[r0].node && w'.runs[r0].rev == w.runs[r0].rev
    requires w'.runs[r0].phase.Running?
    ensures Frames(w, w', Slots(w), w.g.nextId, 0, r0, w.g.nextId)
  {
    assert w.g.nextId !in w.g.nodes;
  }

  /** A run that has not been superseded keeps its story consistent when it learns `e`. */
  lemma ObserveKeeps(w: World, w1: World, r0: nat, e: Entry)
    requires Inv(w) && IsRunning(w, r0)
    requires Quiet(w, w1)
    requires Follows(NextOp(w, r0), e) && (e.Awaited? ==> Declared(e.slot) in w.runs[r0].seen)
    requires Current(w, r0) ==> RunEntryOk(w1, w.runs[r0].node, e)
    ensures Inv(Observe(w1, r0, e))
  {
    QuietKeeps(w, w1);
    var w' := Observe(w1, r0, e);
    var keep := Slots(w1);
    var none := w1.g.nextId;
    RunMoves(w1, w', r0);
    assert RunOk(w1, r0);
    if Current(w', r0) {
      ObserverOk(w1, w', r0, e);
    }
    FramedInv(w1, w', keep, none, 0, r0, none);
  }

  lemma SeenGrows(compute: Compute, seen: seq<Entry>, e: Entry)
    requires Scripted(compute, seen) && DeclaresAwaited(seen)
    requires Follows(compute(seen), e) && (e.Awaited? ==> Declared(e.slot) in seen)
    ensures Scripted(compute, seen + [e]) && DeclaresAwaited(seen + [e])
  {
    var seen' := seen + [e];
    forall k | 0 <= k < |seen'| ensures Follows(compute(seen'[..k]), seen'[k]) {
      if k < |seen| {
        assert seen'[..k] == seen[..k];
      } else {
        assert seen'[..k] == seen;
      }
    }
    forall k | 0 <= k < |seen'| && seen'[k].Awaited? ensures Declared(seen'[k].slot) in seen'[..k] {
      if k < |seen| {
        assert seen'[..k] == seen[..k] && seen'[k] == seen[k];
      } else {
        assert seen'[..k] == seen;
      }
    }
  }

  lemma ObserverOk(w: World, w': World, r0: nat, e: Entry)
    requires Inv(w) && IsRunning(w, r0) && Current(w, r0)
    requires Follows(NextOp(w, r0), e) && RunEntryOk(w, w.runs[r0].node, e)
    requires e.Awaited? ==> Declared(e.slot) in w.runs[r0].seen
    requires w' == Observe(w, r0, e)
    ensures LiveRunOk(w', r0)
  {
    assert RunOk(w, r0);
    var d := w.runs[r0].node;
    var seen, seen' := w.runs[r0].seen, w'.runs[r0].seen;
    var keep := Slots(w);
    var none := w.g.nextId;
    RunMoves(w, w', r0);
    forall k | 0 <= k < |seen'| ensures RunEntryOk(w', d, seen'[k]) {
      assert k < |seen| ==> RunEntryOk(w, d, seen[k]);
      RunEntryKept(w, w', keep, none, 0, d, seen'[k]);
    }
    SeenGrows(w.g.nodes[d].compute, seen, e);
    if Valid(w', d) {
      RerunGrows(w, d, seen, e);
      RerunKept(w, w', keep, none, 0, d, seen');
    }
  }

  /** The next observation either repeats the recorded trace or is new evidence against it. */
  lemma RerunGrows(w: World, d: Id, seen: seq<Entry>, e: Entry)
    requires Inv(w) && Valid(w, d) && Rerun(w, d, seen)
    requires Scripted(w.g.nodes[d].compute, seen)
    requires Follows(w.g.nodes[d].compute(seen), e) && RunEntryOk(w, d, e)
    ensures Rerun(w, d, seen + [e])
  {
    assert PubOk(w, d);
    if Doomed(w, d) {
      var i :| Evidence(w, d, i) && Agree(seen, w.pub[d].trace, i);
      DoomedRerunGrows(w, d, seen, e, i);
    } else {
      CurrentRerunGrows(w, d, seen, e);
    }
  }

  lemma DoomedRerunGrows(w: World, d: Id, seen: seq<Entry>, e: Entry, i: int)
    requires Valid(w, d) && Doomed(w, d) && Evidence(w, d, i) && Agree(seen, w.pub[d].trace, i)
    requires Scripted(w.g.nodes[d].compute, w.pub[d].trace)
    requires Follows(w.g.nodes[d].compute(seen), e) && RunEntryOk(w, d, e)
    ensures Rerun(w, d, seen + [e])
  {
    var t, j := w.pub[d].trace, |seen|;
    if j < i && e != t[j] {
      assert seen == t[..j];
      assert Follows(w.g.nodes[d].compute(t[..j]), t[j]);
      assert TraceEntryOk(w, d, t[j]);
      Diverges(w, d, e, t[j]);
      assert Evidence(w, d, j) && Agree(seen + [e], t, j);
    } else {
      assert Agree(seen + [e], t, i);
    }
  }

  lemma CurrentRerunGrows(w: World, d: Id, seen: seq<Entry>, e: Entry)
    requires Valid(w, d) && !Doomed(w, d) && seen <= w.pub[d].trace && AllCurrent(w, d)
    requires Scripted(w.g.nodes[d].compute, w.pub[d].trace)
    requires w.g.nodes[d].compute(w.pub[d].trace).Return?
    requires Follows(w.g.nodes[d].compute(seen), e) && RunEntryOk(w, d, e)
    ensures Rerun(w, d, seen + [e])
  {
    var t, j := w.pub[d].trace, |seen|;
    assert seen != t && (|t| == j ==> seen == t);
    assert seen == t[..j];
    assert Follows(w.g.nodes[d].compute(t[..j]), t[j]);
    if e != t[j] {
      Diverges(w, d, e, t[j]);
    }
    assert seen + [e] == t[..j + 1];
  }

  /** Two different answers to one question: the recorded one is out of date. */
  lemma Diverges(w: World, d: Id, e: Entry, earlier: Entry)
    requires Valid(w, d)
    requires RunEntryOk(w, d, e) && Linked(w, d, earlier) && (Matches(w, earlier) || DirtyEntry(w, d, earlier))
    requires earlier.Awaited? ==> Stamp(w, earlier.slot) < Stamp(w, d)
    requires e != earlier && exists op :: Follows(op, e) && Follows(op, earlier)
    ensures DirtyEntry(w, d, earlier)
  {
  }

  lemma ObserveSourceKeeps(w: World, r: nat)
    requires Inv(w) && Enabled(w, ObserveSource(r))
    ensures Inv(Next(w, ObserveSource(r)))
  {
    var s := NextOp(w, r).src;
    var d := w.runs[r].node;
    var w1 := RegisterEdge(w, s, d);
    RegisterIsQuiet(w, s, d);
    RegisterFacts(w.g.nodes, s, d);
    ObserveKeeps(w, w1, r, SourceRead(s, w.g.nodes[s].value));
  }

  lemma DeclareDepKeeps(w: World, r: nat)
    requires Inv(w) && Enabled(w, DeclareDep(r))
    ensures Inv(Next(w, DeclareDep(r)))
  {
    var x := NextOp(w, r).dep;
    var d := w.runs[r].node;
    var w1 := RegisterEdge(w, x, d);
    RegisterIsQuiet(w, x, d);
    RegisterFacts(w.g.nodes, x, d);
    ObserveKeeps(w, w1, r, Declared(x));
  }

  /** The edge an awaiting run registered when it declared the slot. */
  lemma AwaitEdge(w: World, r: nat)
    requires Inv(w) && IsRunning(w, r) && AwaitsDeclared(w, r) && Current(w, r)
    ensures NextOp(w, r).slot == w.runs[r].node || Edge(w.g.nodes, NextOp(w, r).slot, w.runs[r].node)
  {
    assert RunOk(w, r);
    var seen := w.runs[r].seen;
    var k :| 0 <= k < |seen| && seen[k] == Declared(NextOp(w, r).slot);
    assert RunEntryOk(w, w.runs[r].node, seen[k]);
  }

  lemma TakeResolvedKeeps(w: World, r: nat)
    requires Inv(w) && Enabled(w, TakeResolved(r))
    ensures Inv(Next(w, TakeResolved(r)))
  {
    var x := NextOp(w, r).slot;
    var e := Awaited(x, w.g.nodes[x].cached.value);
    if Current(w, r) {
      assert RunOk(w, r) && SlotOk(w, x);
      AwaitEdge(w, r);
      assert RunEntryOk(w, w.runs[r].node, e);
    }
    assert Quiet(w, w);
    ObserveKeeps(w, w, r, e);
  }

  lemma DeliverKeeps(w: World, r: nat)
    requires Inv(w) && Enabled(w, Deliver(r))
    ensures Inv(Next(w, Deliver(r)))
  {
    var x := NextOp(w, r).slot;
    var c := w.runs[r].subscribed.value;
    var e := Awaited(x, w.runs[c].phase.result);
    if Current(w, r) {
      assert RunOk(w, r) && RunOk(w, c);
      AwaitEdge(w, r);
      assert RunEntryOk(w, w.runs[r].node, e);
    }
    assert Quiet(w, w);
    ObserveKeeps(w, w, r, e);
  }

  lemma SubscriptionKeeps(w: World, w': World, r0: nat, c: Option<nat>)
    requires Inv(w) && IsRunning(w, r0)
    requires w' == w.(runs := w.runs[r0 := w.runs[r0].(subscribed := c)])
    requires Current(w, r0) ==> WaitOk(w', r0)
    ensures Inv(w')
  {
    var keep := Slots(w);
    var none := w.g.nextId;
    RunMoves(w, w', r0);
    assert RunOk(w, r0);
    var d, seen := w.runs[r0].node, w.runs[r0].seen;
    if Current(w', r0) {
      forall k | 0 <= k < |seen| ensures RunEntryOk(w', d, seen[k]) {
        RunEntryKept(w, w', keep, none, 0, d, seen[k]);
      }
      if Valid(w', d) {
        RerunKept(w, w', keep, none, 0, d, seen);
      }
    }
    FramedInv(w, w', keep, none, 0, r0, none);
  }

  lemma SubscribeKeeps(w: World, r: nat)
    requires Inv(w) && Enabled(w, Subscribe(r))
    ensures Inv(Next(w, Subscribe(r)))
  {
    var x := NextOp(w, r).slot;
    assert SlotOk(w, x) && RunOk(w, r);
    SubscriptionKeeps(w, Next(w, Subscribe(r)), r, w.g.nodes[x].notifier);
  }

  // ---- a run completes -------------------------------------------------------

  /** Run `r` has returned and `tracked` enumerates what it tracked. */
  ghost predicate Finishing(w: World, r: nat, tracked: seq<Id>) {
    IsRunning(w, r) && NextOp(w, r).Return? && Elems(tracked) == Tracked(w.runs[r].seen)
  }

  lemma RewireFacts(nodes: Nodes, owner: Id, tracked: seq<Id>)
    requires IsComputed(nodes, owner)
    ensures UpdateDependencies(nodes, owner, tracked).Keys == nodes.Keys
    ensures forall x :: x in nodes ==> SameButEdges(nodes[x], UpdateDependencies(nodes, owner, tracked)[x])
    ensures forall x :: x in nodes && x in tracked && !nodes[x].Effect? ==>
            Edge(UpdateDependencies(nodes, owner, tracked), x, owner)
  {
  }

  /** Each observation of a completing run is wired to what the run tracked. */
  lemma SeenStaysWired(w: World, r: nat, tracked: seq<Id>, k: nat)
    requires Inv(w) && IsRunning(w, r) && Current(w, r) && Elems(tracked) == Tracked(w.runs[r].seen)
    requires k < |w.runs[r].seen|
    ensures Wired(UpdateDependencies(w.g.nodes, w.runs[r].node, tracked), w.runs[r].node, w.runs[r].seen[k])
  {
    assert RunOk(w, r);
    var d, seen := w.runs[r].node, w.runs[r].seen;
    RewireFacts(w.g.nodes, d, tracked);
    assert RunEntryOk(w, d, seen[k]);
    var j := k;
    if seen[k].Awaited? {
      j :| 0 <= j < k && seen[..k][j] == Declared(seen[k].slot);
    }
    assert (if seen[j].SourceRead? then seen[j].src else seen[j].dep) in Elems(tracked);
  }

  /** A finished observation sequence is never a proper prefix of another script's trace. */
  lemma ReturnsLate(compute: Compute, seen: seq<Entry>, t: seq<Entry>)
    requires Scripted(compute, t) && compute(seen).Return? && |seen| < |t|
    ensures exists k :: 0 <= k < |seen| && seen[k] != t[k]
  {
    assert Follows(compute(t[..|seen|]), t[|seen|]);
    assert seen != t[..|seen|];
  }

  /** Where the recorded trace of a re-run slot stays wired: all of it, or up to the evidence. */
  lemma RerunEnds(w: World, r: nat, tracked: seq<Id>) returns (pick: int)
    requires Inv(w) && Finishing(w, r, tracked) && Current(w, r) && Valid(w, w.runs[r].node)
    ensures
      var d := w.runs[r].node;
      var nodes := UpdateDependencies(w.g.nodes, d, tracked);
      var t := w.pub[d].trace;
      if Doomed(w, d) then
        Evidence(w, d, pick) && forall k :: 0 <= k <= pick ==> Wired(nodes, d, t[k])
      else
        (forall k :: 0 <= k < |t| ==> Wired(nodes, d, t[k])) && NextOp(w, r).result == w.pub[d].value
  {
    assert RunOk(w, r) && LiveRunOk(w, r);
    var d, seen := w.runs[r].node, w.runs[r].seen;
    var t := w.pub[d].trace;
    assert PubOk(w, d);
    var nodes := UpdateDependencies(w.g.nodes, d, tracked);
    if Doomed(w, d) {
      pick :| Evidence(w, d, pick) && Agree(seen, t, pick);
      if |seen| < |t| {
        ReturnsLate(w.g.nodes[d].compute, seen, t);
      }
      assert pick < |seen|;
      forall k | 0 <= k <= pick ensures Wired(nodes, d, t[k]) {
        assert seen[..k] == t[..k];
        assert Follows(w.g.nodes[d].compute(seen[..k]), seen[k]) && Follows(w.g.nodes[d].compute(t[..k]), t[k]);
        SeenStaysWired(w, r, tracked, k);
      }
    } else {
      pick := 0;
      if |seen| < |t| {
        ReturnsLate(w.g.nodes[d].compute, seen, t);
      }
      assert seen == t;
      forall k | 0 <= k < |t| ensures Wired(nodes, d, t[k]) {
        SeenStaysWired(w, r, tracked, k);
      }
    }
  }

  /** What a publication of `v` by run `r0` changes, and that its observations stay wired. */
  ghost predicate Publishes(w: World, w': World, r0: nat, v: Value)
    requires r0 < |w.runs| && IsComputed(w.g.nodes, w.runs[r0].node)
  {
    var d0, n := w.runs[r0].node, w.g.nodes[w.runs[r0].node];
    && w'.g.nodes.Keys == w.g.nodes.Keys
    && (forall x :: x in w.g.nodes && x != d0 ==> SameButEdges(w.g.nodes[x], w'.g.nodes[x]))
    && w'.g.nodes[d0].Computed?
    && w'.g.nodes[d0].revision == n.revision && w'.g.nodes[d0].compute == n.compute
    && w'.g.nodes[d0].state == Resolved && w'.g.nodes[d0].cached == Some(v)
    && (forall x, d :: d != d0 ==> (Edge(w'.g.nodes, x, d) <==> Edge(w.g.nodes, x, d)))
    && (forall k :: 0 <= k < |w.runs[r0].seen| ==> Wired(w'.g.nodes, d0, w.runs[r0].seen[k]))
    && w'.g.batchedCells == w.g.batchedCells && w'.g.freeIds == w.g.freeIds && w'.g.nextId == w.g.nextId
    && w'.walks == w.walks && w'.drains == w.drains
    && w'.runs == w.runs[r0 := w.runs[r0].(phase := Published(v))]
    && if Valid(w, d0) then w'.pub == w.pub && w'.clock == w.clock
       else w'.pub == w.pub[d0 := Pub(w.runs[r0].rev, w.runs[r0].seen, v, w.clock)] && w'.clock == w.clock + 1
  }

  lemma FinishPublishes(w: World, r0: nat, tracked: seq<Id>)
    requires Inv(w) && Finishing(w, r0, tracked) && Current(w, r0)
    ensures Publishes(w, FinishRun(w, r0, NextOp(w, r0).result, tracked), r0, NextOp(w, r0).result)
    ensures forall e :: Wired(UpdateDependencies(w.g.nodes, w.runs[r0].node, tracked), w.runs[r0].node, e) ==>
                        Wired(FinishRun(w, r0, NextOp(w, r0).result, tracked).g.nodes, w.runs[r0].node, e)
  {
    assert RunOk(w, r0) && LiveRunOk(w, r0);
    var d0 := w.runs[r0].node;
    var w' := FinishRun(w, r0, NextOp(w, r0).result, tracked);
    RewireFacts(w.g.nodes, d0, tracked);
    forall x, d | d != d0 ensures Edge(w'.g.nodes, x, d) <==> Edge(w.g.nodes, x, d) {
      RewireOthers(w.g.nodes, d0, tracked, x, d);
    }
    forall k | 0 <= k < |w.runs[r0].seen| ensures Wired(w'.g.nodes, d0, w.runs[r0].seen[k]) {
      SeenStaysWired(w, r0, tracked, k);
    }
  }

  lemma PublishCarries(w: World, w': World, r0: nat, v: Value)
    requires AllocOk(w) && HistoryOk(w) && Current(w, r0) && Publishes(w, w', r0, v)
    ensures Carries(w, w', Slots(w))
    ensures AllocOk(w') && HistoryOk(w')
  {
    forall x | x in w.g.nodes && x != w.runs[r0].node ensures SameButEdges(w.g.nodes[x], w'.g.nodes[x]) {
    }
  }

  lemma PublishRewires(w: World, w': World, r0: nat, tracked: seq<Id>) returns (pick: int)
    requires Inv(w) && Finishing(w, r0, tracked) && Current(w, r0)
    requires w' == FinishRun(w, r0, NextOp(w, r0).result, tracked) && Publishes(w, w', r0, NextOp(w, r0).result)
    ensures Rewires(w, w', Slots(w), w.runs[r0].node, pick)
  {
    var d0 := w.runs[r0].node;
    FinishPublishes(w, r0, tracked);
    if Valid(w, d0) {
      pick := RerunEnds(w, r0, tracked);
    } else {
      pick := 0;
    }
    forall d | d in Slots(w) && d != d0 ensures EdgesKept(w, w', d) && (Valid(w', d) ==> Valid(w, d)) {
      assert SameButEdges(w.g.nodes[d], w'.g.nodes[d]);
    }
  }

  lemma PublishFrames(w: World, w': World, r0: nat, v: Value, pick: int)
    requires Inv(w) && IsRunning(w, r0) && Current(w, r0) && Publishes(w, w', r0, v)
    requires Carries(w, w', Slots(w)) && Rewires(w, w', Slots(w), w.runs[r0].node, pick)
    ensures Frames(w, w', Slots(w), w.runs[r0].node, pick, r0, w.runs[r0].node)
  {
    assert RunOk(w, r0) && LiveRunOk(w, r0);
    var d0 := w.runs[r0].node;
    forall r | 0 <= r < |w.runs| && r != r0 && IsRunning(w, r) && Current(w, r) ensures w.runs[r].node != d0 {
      assert RunOk(w, r);
    }
    forall d | d in Slots(w) && d != d0 ensures SameSlot(w.g.nodes[d], w'.g.nodes[d]) {
      assert SameButEdges(w.g.nodes[d], w'.g.nodes[d]);
    }
  }

  /** One observation of a first publication is linked to an older publication. */
  lemma FirstEntryOk(w: World, w': World, r0: nat, v: Value, pick: int, e: Entry)
    requires Inv(w) && Current(w, r0) && Publishes(w, w', r0, v) && !Valid(w, w.runs[r0].node)
    requires Carries(w, w', Slots(w)) && Rewires(w, w', Slots(w), w.runs[r0].node, pick)
    requires RunEntryOk(w, w.runs[r0].node, e) && Wired(w'.g.nodes, w.runs[r0].node, e)
    ensures TraceEntryOk(w', w.runs[r0].node, e)
  {
    var d0 := w.runs[r0].node;
    LinkedKept(w, w', Slots(w), d0, e);
    if e.Awaited? {
      assert PubOk(w, e.slot);
      if Doomed(w, e.slot) {
        DoomedKept(w, w', Slots(w), d0, pick, e.slot);
      }
    }
  }

  /** A first publication records a trace whose entries are all linked to older publications. */
  lemma FirstPublicationOk(w: World, w': World, r0: nat, v: Value, pick: int)
    requires Inv(w) && IsRunning(w, r0) && Current(w, r0) && NextOp(w, r0) == Return(v)
    requires Publishes(w, w', r0, v) && !Valid(w, w.runs[r0].node)
    requires Carries(w, w', Slots(w)) && Rewires(w, w', Slots(w), w.runs[r0].node, pick)
    ensures PubOk(w', w.runs[r0].node)
  {
    assert RunOk(w, r0) && LiveRunOk(w, r0);
    var d0, seen := w.runs[r0].node, w.runs[r0].seen;
    forall k | 0 <= k < |seen| ensures TraceEntryOk(w', d0, seen[k]) {
      assert RunEntryOk(w, d0, seen[k]) && Wired(w'.g.nodes, d0, seen[k]);
      FirstEntryOk(w, w', r0, v, pick, seen[k]);
    }
    if k :| 0 <= k < |seen| && DirtyEntry(w', d0, seen[k]) {
      assert Evidence(w', d0, k);
    }
  }

  lemma PublishKeeps(w: World, r0: nat, tracked: seq<Id>)
    requires Inv(w) && Finishing(w, r0, tracked) && Current(w, r0)
    ensures Inv(FinishRun(w, r0, NextOp(w, r0).result, tracked))
  {
    var v := NextOp(w, r0).result;
    var w' := FinishRun(w, r0, v, tracked);
    var d0 := w.runs[r0].node;
    FinishPublishes(w, r0, tracked);
    PublishCarries(w, w', r0, v);
    var pick := PublishRewires(w, w', r0, tracked);
    PublishFrames(w, w', r0, v, pick);
    if !Valid(w, d0) {
      FirstPublicationOk(w, w', r0, v, pick);
    } else {
      var p := RerunEnds(w, r0, tracked);
      if Doomed(w, d0) {
        DoomedKept(w, w', Slots(w), d0, pick, d0);
      }
    }
    assert ValueOk(w', d0, v);
    FramedInv(w, w', Slots(w), d0, pick, r0, d0);
  }

  lemma CompleteKeeps(w: World, r0: nat, tracked: seq<Id>)
    requires Inv(w) && Finishing(w, r0, tracked)
    ensures Inv(FinishRun(w, r0, NextOp(w, r0).result, tracked))
  {
    assert RunOk(w, r0);
    if Current(w, r0) {
      PublishKeeps(w, r0, tracked);
    } else {
      var w' := FinishRun(w, r0, NextOp(w, r0).result, tracked);
      assert w.g.nextId !in w.g.nodes;
      assert Frames(w, w', Slots(w), w.g.nextId, 0, r0, w.g.nextId);
      FramedInv(w, w', Slots(w), w.g.nextId, 0, r0, w.g.nextId);
    }
  }

  lemma StepKeeps(w: World, a: Action)
    requires Inv(w) && Enabled(w, a)
    ensures Inv(Next(w, a))
  {
    match a
    case MakeSource(v) => MakeKeeps(w, FreshSource(v));
    case MakeComputed(c) => MakeKeeps(w, FreshComputed(c));
    case MakeEffect(b) => MakeKeeps(w, FreshEffect(b));
    case EffectReads(e, x) => EffectReadsKeeps(w, e, x);
    case EffectFinishes(e, tracked) => EffectFinishesKeeps(w, e, tracked);
    case Set(s, v) => SetKeeps(w, s, v);
    case BatchEnter => EnterKeeps(w);
    case BatchExit => LeaveKeeps(w);
    case DrainCell(k, s) => DrainCellKeeps(w, k, s);
    case DrainDone(k) => DrainDoneKeeps(w, k);
    case Clear(roots) => ClearKeeps(w, roots);
    case WalkRoots(k) => WalkKeeps(w, k);
    case Spawn(d) => SpawnKeeps(w, d);
    case ObserveSource(r) => ObserveSourceKeeps(w, r);
    case DeclareDep(r) => DeclareDepKeeps(w, r);
    case TakeResolved(r) => TakeResolvedKeeps(w, r);
    case Subscribe(r) => SubscribeKeeps(w, r);
    case Unsubscribe(r) => SubscriptionKeeps(w, Next(w, a), r, None);
    case Deliver(r) => DeliverKeeps(w, r);
    case Complete(r, tracked) => CompleteKeeps(w, r, tracked);
  }
}
