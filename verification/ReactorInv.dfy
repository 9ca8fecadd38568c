/**
 The inductive invariant behind cache freshness.

 A slot is *valid* when it has published at its current revision. Its recorded trace is
 that of the first such publication and never changes while the slot stays valid. A valid
 slot is *doomed* when its trace carries evidence that a pending invalidation will reach
 it: a linked prefix ending in an entry that is dirty, either because a walk or batch that
 must visit the slot is pending, or because the awaited slot is itself doomed. Stamps
 strictly fall along awaited entries, so evidence is well founded even on cyclic graphs.
 */
module ReactorInv {
  import opened Prelude
  import opened Graph
  import opened Reactor

  ghost predicate Valid(w: World, d: Id) {
    IsComputed(w.g.nodes, d) && d in w.pub && w.pub[d].rev == w.g.nodes[d].revision
  }

  ghost function Stamp(w: World, d: Id): nat {
    if d in w.pub then w.pub[d].stamp else 0
  }

  ghost predicate InWalk(w: World, d: Id) {
    exists k :: 0 <= k < |w.walks| && d in w.walks[k]
  }

  ghost predicate InDrain(w: World, d: Id) {
    exists k :: 0 <= k < |w.drains| && d in w.drains[k].roots
  }

  ghost predicate IsBatched(w: World, s: Id) {
    s in w.g.batchedCells || exists k :: 0 <= k < |w.drains| && s in w.drains[k].cells
  }

  /** A pending invalidation will visit `d`, provided `d` is a registered reader of `s`. */
  ghost predicate SourceDirty(w: World, s: Id, d: Id) {
    InWalk(w, d) || InDrain(w, d) || IsBatched(w, s)
  }

  /** The reverse edge behind one observation of `d`. */
  ghost predicate Wired(nodes: Nodes, d: Id, e: Entry) {
    match e
    case SourceRead(s, _) => Edge(nodes, s, d)
    case Declared(x) => x == d || Edge(nodes, x, d)
    case Awaited(x, _) => Edge(nodes, x, d)
  }

  ghost predicate Linked(w: World, d: Id, e: Entry) {
    && Wired(w.g.nodes, d, e)
    && match e
       case SourceRead(s, _) => IsSource(w.g.nodes, s)
       case Declared(x) => IsComputed(w.g.nodes, x)
       case Awaited(x, _) => x != d && Valid(w, x)
  }

  /** The observation still agrees with the source's value, or with the slot's first publication. */
  ghost predicate Matches(w: World, e: Entry) {
    match e
    case SourceRead(s, v) => IsSource(w.g.nodes, s) && w.g.nodes[s].value == v
    case Declared(_) => true
    case Awaited(x, v) => x in w.pub && w.pub[x].value == v
  }

  ghost predicate Doomed(w: World, d: Id)
    decreases Stamp(w, d), 3
  {
    Valid(w, d) && exists i :: Evidence(w, d, i)
  }

  ghost predicate Evidence(w: World, d: Id, i: int)
    decreases Stamp(w, d), 2
  {
    && d in w.pub
    && 0 <= i < |w.pub[d].trace|
    && (forall k :: 0 <= k <= i ==> TraceEntryOk(w, d, w.pub[d].trace[k]))
    && DirtyEntry(w, d, w.pub[d].trace[i])
  }

  ghost predicate DirtyEntry(w: World, d: Id, e: Entry)
    decreases Stamp(w, d), 0
  {
    match e
    case SourceRead(s, _) => SourceDirty(w, s, d)
    case Declared(_) => false
    case Awaited(x, _) => Stamp(w, x) < Stamp(w, d) && Doomed(w, x)
  }

  ghost predicate TraceEntryOk(w: World, d: Id, e: Entry)
    decreases Stamp(w, d), 1
  {
    Linked(w, d, e) && (e.Awaited? ==> Stamp(w, e.slot) < Stamp(w, d)) && (Matches(w, e) || DirtyEntry(w, d, e))
  }

  /** The same for an observation of a run, which has no stamp yet. */
  ghost predicate RunEntryOk(w: World, d: Id, e: Entry) {
    Linked(w, d, e) && (Matches(w, e) || RunDirty(w, d, e))
  }

  ghost predicate RunDirty(w: World, d: Id, e: Entry) {
    match e
    case SourceRead(s, _) => SourceDirty(w, s, d)
    case Declared(_) => false
    case Awaited(x, _) => Doomed(w, x)
  }

  ghost predicate Follows(op: Op, e: Entry) {
    match e
    case SourceRead(s, _) => op == ReadSource(s)
    case Declared(x) => op == Declare(x)
    case Awaited(x, _) => op == Await(x)
  }

  /** `t` is what `compute` observes when it is answered as `t` says. */
  ghost predicate Scripted(compute: Compute, t: seq<Entry>) {
    forall k :: 0 <= k < |t| ==> Follows(compute(t[..k]), t[k])
  }

  ghost predicate Agree(s: seq<Entry>, t: seq<Entry>, n: int) {
    forall k :: 0 <= k < n && k < |s| && k < |t| ==> s[k] == t[k]
  }

  /** Every entry of a valid slot's trace is linked and current, or the slot is doomed. */
  ghost predicate AllCurrent(w: World, d: Id)
    requires d in w.pub
  {
    forall k :: 0 <= k < |w.pub[d].trace| ==>
      && Linked(w, d, w.pub[d].trace[k])
      && Matches(w, w.pub[d].trace[k])
      && !DirtyEntry(w, d, w.pub[d].trace[k])
      && (w.pub[d].trace[k].Awaited? ==> Stamp(w, w.pub[d].trace[k].slot) < Stamp(w, d))
  }

  ghost predicate PubOk(w: World, d: Id) {
    Valid(w, d) ==>
      && Scripted(w.g.nodes[d].compute, w.pub[d].trace) && DeclaresAwaited(w.pub[d].trace)
      && w.g.nodes[d].compute(w.pub[d].trace) == Return(w.pub[d].value)
      && w.pub[d].stamp < w.clock
      && (Doomed(w, d) || AllCurrent(w, d))
  }

  /** A value published at the current revision is the first one, unless the slot is doomed. */
  ghost predicate ValueOk(w: World, d: Id, v: Value) {
    Valid(w, d) && (v == w.pub[d].value || Doomed(w, d))
  }

  /** A re-run of a valid slot repeats the recorded trace up to the evidence against it. */
  ghost predicate Rerun(w: World, d: Id, seen: seq<Entry>)
    requires Valid(w, d)
  {
    if Doomed(w, d) then exists i :: Evidence(w, d, i) && Agree(seen, w.pub[d].trace, i)
    else seen <= w.pub[d].trace
  }

  ghost predicate WaitOk(w: World, r: nat)
    requires r < |w.runs| && IsComputed(w.g.nodes, w.runs[r].node)
  {
    w.runs[r].subscribed.Some? ==>
      var c := w.runs[r].subscribed.value;
      && c < |w.runs|
      && IsComputed(w.g.nodes, w.runs[c].node)
      && w.runs[c].rev == w.g.nodes[w.runs[c].node].revision
      && NextOp(w, r) == Await(w.runs[c].node)
      && Declared(w.runs[c].node) in w.runs[r].seen
      && (w.runs[c].node == w.runs[r].node ==> c == r)
  }

  ghost predicate Current(w: World, r: nat) {
    && r < |w.runs|
    && IsComputed(w.g.nodes, w.runs[r].node)
    && w.runs[r].rev == w.g.nodes[w.runs[r].node].revision
  }

  /** Only slots declared before are awaited, so the tracker covers every observation. */
  ghost predicate DeclaresAwaited(seen: seq<Entry>) {
    forall k :: 0 <= k < |seen| && seen[k].Awaited? ==> Declared(seen[k].slot) in seen[..k]
  }

  /** An unpublished run at its slot's current revision. */
  ghost predicate LiveRunOk(w: World, r: nat)
    requires Current(w, r)
  {
    var run := w.runs[r];
    var n := w.g.nodes[run.node];
    && n.state == Computing(run.rev)
    && n.notifier == Some(r)
    && Scripted(n.compute, run.seen)
    && DeclaresAwaited(run.seen)
    && (forall k :: 0 <= k < |run.seen| ==> RunEntryOk(w, run.node, run.seen[k]))
    && (Valid(w, run.node) ==> Rerun(w, run.node, run.seen))
    && WaitOk(w, r)
  }

  ghost predicate RunOk(w: World, r: nat)
    requires r < |w.runs|
  {
    && IsComputed(w.g.nodes, w.runs[r].node)
    && w.runs[r].rev <= w.g.nodes[w.runs[r].node].revision
    && (Current(w, r) ==>
          match w.runs[r].phase
          case Running => LiveRunOk(w, r)
          case Published(v) => ValueOk(w, w.runs[r].node, v)
          case Dropped => false)
  }

  ghost predicate SlotOk(w: World, d: Id)
    requires IsComputed(w.g.nodes, d)
  {
    var n := w.g.nodes[d];
    match n.state
    case Empty => true
    case Computing(rev) =>
      && rev == n.revision
      && n.notifier.Some?
      && n.notifier.value < |w.runs|
      && w.runs[n.notifier.value].node == d
      && w.runs[n.notifier.value].rev == rev
      && w.runs[n.notifier.value].phase.Running?
    case Resolved => n.cached.Some? && ValueOk(w, d, n.cached.value)
  }

  ghost predicate AllocOk(w: World) {
    w.g.freeIds == [] && forall d :: d in w.g.nodes ==> d < w.g.nextId
  }

  ghost predicate HistoryOk(w: World) {
    forall d :: d in w.pub ==> IsComputed(w.g.nodes, d) && w.pub[d].rev <= w.g.nodes[d].revision
  }

  ghost predicate Inv(w: World) {
    && AllocOk(w)
    && HistoryOk(w)
    && (forall d {:trigger PubOk(w, d)} :: PubOk(w, d))
    && (forall d {:trigger SlotOk(w, d)} :: IsComputed(w.g.nodes, d) ==> SlotOk(w, d))
    && (forall r {:trigger RunOk(w, r)} :: 0 <= r < |w.runs| ==> RunOk(w, r))
  }

  // ---- carrying facts from one world to the next -----------------------------

  /**
   What an action leaves in place for the slots in `keep`: their revision and history, the
   upstream slots they rest on, and every pending invalidation that must reach them.
   */
  ghost predicate Carries(w: World, w': World, keep: set<Id>) {
    && (forall d :: d in keep ==>
          && IsComputed(w.g.nodes, d) && IsComputed(w'.g.nodes, d)
          && w'.g.nodes[d].revision == w.g.nodes[d].revision
          && w'.g.nodes[d].compute == w.g.nodes[d].compute)
    && (forall d :: d in keep && Valid(w, d) ==> d in w'.pub && w'.pub[d] == w.pub[d])
    && (forall x, d :: d in keep && Edge(w.g.nodes, x, d) && IsComputed(w.g.nodes, x) ==> x in keep)
    && (forall x :: IsComputed(w.g.nodes, x) ==> IsComputed(w'.g.nodes, x))
    && (forall s :: IsSource(w.g.nodes, s) ==> IsSource(w'.g.nodes, s))
    && (forall s, d :: d in keep && IsSource(w.g.nodes, s) && Edge(w.g.nodes, s, d) ==>
          && (w'.g.nodes[s].value != w.g.nodes[s].value ==> SourceDirty(w', s, d))
          && (SourceDirty(w, s, d) ==> SourceDirty(w', s, d)))
    && w.clock <= w'.clock
  }

  /** Every reverse edge into `d` survives. */
  ghost predicate EdgesKept(w: World, w': World, d: Id) {
    forall x :: Edge(w.g.nodes, x, d) ==> Edge(w'.g.nodes, x, d)
  }

  /** Edges survive everywhere except at `owner`, whose recorded trace survives as far as it is needed. */
  ghost predicate Rewires(w: World, w': World, keep: set<Id>, owner: Id, pick: int) {
    && (forall d :: d in keep && d != owner ==> EdgesKept(w, w', d) && (Valid(w', d) ==> Valid(w, d)))
    && (owner in keep && Valid(w, owner) ==>
          if Doomed(w, owner) then
            Evidence(w, owner, pick)
            && forall k :: 0 <= k <= pick ==> Wired(w'.g.nodes, owner, w.pub[owner].trace[k])
          else
            forall k :: 0 <= k < |w.pub[owner].trace| ==> Wired(w'.g.nodes, owner, w.pub[owner].trace[k]))
  }

  lemma EvidenceOf(w: World, d: Id) returns (i: int)
    requires Doomed(w, d)
    ensures Evidence(w, d, i)
  {
    i :| Evidence(w, d, i);
  }

  lemma ValidKept(w: World, w': World, keep: set<Id>, d: Id)
    requires Carries(w, w', keep) && d in keep && Valid(w, d)
    ensures Valid(w', d) && Stamp(w, d) == Stamp(w', d)
  {
  }

  lemma LinkedKept(w: World, w': World, keep: set<Id>, d: Id, e: Entry)
    requires Carries(w, w', keep) && d in keep
    requires Linked(w, d, e) && Wired(w'.g.nodes, d, e)
    ensures Linked(w', d, e)
    ensures e.Awaited? ==> e.slot in keep && Stamp(w', e.slot) == Stamp(w, e.slot)
    ensures Matches(w, e) ==> Matches(w', e) || (e.SourceRead? && SourceDirty(w', e.src, d))
  {
    if e.Awaited? {
      ValidKept(w, w', keep, e.slot);
    }
  }

  lemma {:induction false} EntryKept(w: World, w': World, keep: set<Id>, owner: Id, pick: int, d: Id, e: Entry)
    requires Carries(w, w', keep) && Rewires(w, w', keep, owner, pick) && d in keep && Valid(w, d)
    requires TraceEntryOk(w, d, e) && Wired(w'.g.nodes, d, e)
    ensures TraceEntryOk(w', d, e)
    ensures DirtyEntry(w, d, e) ==> DirtyEntry(w', d, e)
    decreases Stamp(w, d), 0
  {
    LinkedKept(w, w', keep, d, e);
    ValidKept(w, w', keep, d);
    if DirtyEntry(w, d, e) && e.Awaited? {
      DoomedKept(w, w', keep, owner, pick, e.slot);
    }
  }

  lemma {:induction false} EvidenceKept(w: World, w': World, keep: set<Id>, owner: Id, pick: int, d: Id, i: int)
    requires Carries(w, w', keep) && Rewires(w, w', keep, owner, pick) && d in keep && Valid(w, d)
    requires Evidence(w, d, i) && (d == owner ==> i == pick)
    ensures Evidence(w', d, i)
    decreases Stamp(w, d), 1
  {
    var t := w.pub[d].trace;
    assert Doomed(w, d);
    forall k | 0 <= k <= i ensures TraceEntryOk(w', d, t[k]) && (DirtyEntry(w, d, t[k]) ==> DirtyEntry(w', d, t[k])) {
      assert TraceEntryOk(w, d, t[k]);
      assert Wired(w'.g.nodes, d, t[k]);
      EntryKept(w, w', keep, owner, pick, d, t[k]);
    }
  }

  /** A doomed slot stays doomed until a walk reaches it. */
  lemma {:induction false} DoomedKept(w: World, w': World, keep: set<Id>, owner: Id, pick: int, d: Id)
    requires Carries(w, w', keep) && Rewires(w, w', keep, owner, pick) && d in keep
    requires Doomed(w, d)
    ensures Doomed(w', d)
    decreases Stamp(w, d), 2
  {
    var i :| Evidence(w, d, i);
    var j := if d == owner then pick else i;
    EvidenceKept(w, w', keep, owner, pick, d, j);
    ValidKept(w, w', keep, d);
  }

  lemma PubKept(w: World, w': World, keep: set<Id>, owner: Id, pick: int, d: Id)
    requires Carries(w, w', keep) && Rewires(w, w', keep, owner, pick) && d in keep
    requires Valid(w, d) && PubOk(w, d)
    ensures PubOk(w', d)
    ensures Doomed(w, d) ==> Doomed(w', d)
  {
    if Doomed(w, d) {
      DoomedKept(w, w', keep, owner, pick, d);
    } else {
      var t := w.pub[d].trace;
      forall k | 0 <= k < |t| ensures TraceEntryOk(w', d, t[k]) {
        assert Wired(w'.g.nodes, d, t[k]);
        EntryKept(w, w', keep, owner, pick, d, t[k]);
      }
      if k :| 0 <= k < |t| && DirtyEntry(w', d, t[k]) {
        assert Evidence(w', d, k);
      }
    }
  }

  lemma ValueKept(w: World, w': World, keep: set<Id>, owner: Id, pick: int, d: Id, v: Value)
    requires Carries(w, w', keep) && Rewires(w, w', keep, owner, pick) && d in keep
    requires ValueOk(w, d, v)
    ensures ValueOk(w', d, v)
  {
    if Doomed(w, d) {
      DoomedKept(w, w', keep, owner, pick, d);
    }
  }

  lemma RunEntryKept(w: World, w': World, keep: set<Id>, owner: Id, pick: int, d: Id, e: Entry)
    requires Carries(w, w', keep) && Rewires(w, w', keep, owner, pick) && d in keep && d != owner
    requires RunEntryOk(w, d, e)
    ensures RunEntryOk(w', d, e)
  {
    assert Wired(w'.g.nodes, d, e);
    LinkedKept(w, w', keep, d, e);
    if e.Awaited? && Doomed(w, e.slot) {
      DoomedKept(w, w', keep, owner, pick, e.slot);
    }
  }

  lemma RerunKept(w: World, w': World, keep: set<Id>, owner: Id, pick: int, d: Id, seen: seq<Entry>)
    requires Carries(w, w', keep) && Rewires(w, w', keep, owner, pick) && d in keep && d != owner
    requires Valid(w, d) && Rerun(w, d, seen)
    ensures Valid(w', d) && Rerun(w', d, seen)
  {
    ValidKept(w, w', keep, d);
    if Doomed(w, d) {
      var i :| Evidence(w, d, i) && Agree(seen, w.pub[d].trace, i);
      EvidenceKept(w, w', keep, owner, pick, d, i);
    } else if Doomed(w', d) {
      var i := EvidenceOf(w', d);
      assert Agree(seen, w'.pub[d].trace, i);
    }
  }

  // ---- framing one action ----------------------------------------------------

  /** Everything except run `r0` and slot `d0` looks the same, or has been emptied. */
  ghost predicate Frames(w: World, w': World, keep: set<Id>, owner: Id, pick: int, r0: nat, d0: Id) {
    && Carries(w, w', keep)
    && Rewires(w, w', keep, owner, pick)
    && |w.runs| <= |w'.runs|
    && (|w'.runs| > |w.runs| ==> r0 == |w.runs| && |w'.runs| == r0 + 1)
    && (forall r :: 0 <= r < |w.runs| ==>
          && w'.runs[r].node == w.runs[r].node
          && w'.runs[r].rev == w.runs[r].rev
          && (r != r0 ==> w'.runs[r] == w.runs[r])
          && (Current(w, r) && w.runs[r].node != d0 && w.runs[r].phase.Running? ==> w'.runs[r].phase.Running?))
    && (forall r :: 0 <= r < |w.runs| && r != r0 && IsRunning(w, r) && Current(w, r) ==>
          w.runs[r].node != owner && w.runs[r].node != d0)
    && (forall d :: d in keep && d != d0 ==> SameSlot(w.g.nodes[d], w'.g.nodes[d]))
    && (forall d :: IsComputed(w'.g.nodes, d) && d !in keep ==>
          && w'.g.nodes[d].state.Empty?
          && (IsComputed(w.g.nodes, d) ==> w'.g.nodes[d].revision > w.g.nodes[d].revision)
          && !Valid(w', d))
  }

  ghost predicate SameSlot(n: Node, n': Node)
    requires n.Computed? && n'.Computed?
  {
    n'.state == n.state && n'.cached == n.cached && n'.notifier == n.notifier
  }

  lemma PubsFramed(w: World, w': World, keep: set<Id>, owner: Id, pick: int, r0: nat, d0: Id, d: Id)
    requires Inv(w) && Frames(w, w', keep, owner, pick, r0, d0)
    requires Valid(w', d) && (d == owner ==> Valid(w, d))
    ensures PubOk(w', d)
  {
    assert d in keep && Valid(w, d);
    PubKept(w, w', keep, owner, pick, d);
  }

  lemma SlotsFramed(w: World, w': World, keep: set<Id>, owner: Id, pick: int, r0: nat, d0: Id, d: Id)
    requires Inv(w) && Frames(w, w', keep, owner, pick, r0, d0)
    requires IsComputed(w'.g.nodes, d) && d != d0
    ensures SlotOk(w', d)
  {
    if d in keep {
      assert SlotOk(w, d);
      var n := w.g.nodes[d];
      if n.state.Resolved? {
        ValueKept(w, w', keep, owner, pick, d, n.cached.value);
      }
    }
  }

  lemma RunsFramed(w: World, w': World, keep: set<Id>, owner: Id, pick: int, r0: nat, d0: Id, r: nat)
    requires Inv(w) && Frames(w, w', keep, owner, pick, r0, d0)
    requires r < |w'.runs| && r != r0
    ensures RunOk(w', r)
  {
    assert RunOk(w, r);
    var run := w.runs[r];
    var d := run.node;
    if Current(w', r) {
      assert d in keep && Current(w, r);
      match run.phase
      case Dropped =>
      case Published(v) => ValueKept(w, w', keep, owner, pick, d, v);
      case Running =>
        assert IsRunning(w, r) && LiveRunOk(w, r);
        forall k | 0 <= k < |run.seen| ensures RunEntryOk(w', d, run.seen[k]) {
          RunEntryKept(w, w', keep, owner, pick, d, run.seen[k]);
        }
        if Valid(w', d) {
          RerunKept(w, w', keep, owner, pick, d, run.seen);
        }
        WaitFramed(w, w', keep, owner, pick, r0, d0, r);
    }
  }

  lemma WaitFramed(w: World, w': World, keep: set<Id>, owner: Id, pick: int, r0: nat, d0: Id, r: nat)
    requires Inv(w) && Frames(w, w', keep, owner, pick, r0, d0)
    requires r < |w.runs| && IsRunning(w, r) && Current(w, r) && w.runs[r].node in keep
    requires w'.runs[r] == w.runs[r]
    ensures WaitOk(w', r)
  {
    assert RunOk(w, r) && LiveRunOk(w, r);
    var run := w.runs[r];
    if run.subscribed.Some? {
      var e := w.runs[run.subscribed.value].node;
      var k :| 0 <= k < |run.seen| && run.seen[k] == Declared(e);
      assert RunEntryOk(w, run.node, run.seen[k]);
      assert e in keep;
    }
  }

  /** An action keeps the invariant once the run, the slot and the owner it touches are accounted for. */
  lemma FramedInv(w: World, w': World, keep: set<Id>, owner: Id, pick: int, r0: nat, d0: Id)
    requires Inv(w) && Frames(w, w', keep, owner, pick, r0, d0) && AllocOk(w') && HistoryOk(w')
    requires IsComputed(w'.g.nodes, d0) ==> SlotOk(w', d0)
    requires r0 < |w'.runs| ==> RunOk(w', r0)
    requires Valid(w', owner) && !Valid(w, owner) ==> PubOk(w', owner)
    ensures Inv(w')
  {
    forall d ensures PubOk(w', d) {
      if Valid(w', d) && (d != owner || Valid(w, owner)) {
        PubsFramed(w, w', keep, owner, pick, r0, d0, d);
      }
    }
    forall d | IsComputed(w'.g.nodes, d) ensures SlotOk(w', d) {
      if d != d0 {
        SlotsFramed(w, w', keep, owner, pick, r0, d0, d);
      }
    }
    forall r | 0 <= r < |w'.runs| ensures RunOk(w', r) {
      if r != r0 {
        RunsFramed(w, w', keep, owner, pick, r0, d0, r);
      }
    }
  }
}
