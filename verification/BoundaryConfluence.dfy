/**
 Bootstrap confluence: one covering snapshot and any arrangement, with duplicates, of frames of
 its generation end in one and the same replica.
 */
module BoundaryConfluence {
  import opened Prelude
  import opened Boundary
  import opened BoundaryInvariants

  /** Everything a projection shows, except the two counters. */
  function View(s: Core): Core {
    s.(revision := 0, staleEvents := 0)
  }

  /** `c` is the last cursor of the contiguous stretch of `m` that follows `from`. */
  ghost predicate IsStop(m: map<nat, Event>, from: nat, c: nat) {
    from <= c && c + 1 !in m && forall k :: from < k <= c ==> k in m
  }

  lemma StopUnique(m: map<nat, Event>, from: nat, c: nat, c': nat)
    requires IsStop(m, from, c) && IsStop(m, from, c')
    ensures c == c'
  {
    assert !(c < c + 1 <= c') && !(c' < c' + 1 <= c);
  }

  ghost predicate FiledIn(m: map<nat, Event>) {
    forall k :: k in m ==> m[k].cursor == k
  }

  /** Equal but for the buffer and the two counters. */
  ghost predicate SameBut(s: Core, s': Core) {
    s' == s.(buffered := s'.buffered, revision := s'.revision, staleEvents := s'.staleEvents)
  }

  /** The replica `base` once its payloads have come to `f` and the frames `m` are left waiting. */
  function At(base: Core, f: Fold, m: map<nat, Event>): Core {
    View(Rest(With(base, f).(buffered := m)))
  }

  /** The snapshot state `base` once it has met the frames `m`, contiguous up to `c`. */
  ghost function Settled(base: Core, m: map<nat, Event>, c: nat): Core
    requires base.cursor.Some? && FiledIn(m) && IsStop(m, base.cursor.value, c)
  {
    At(base, Range(FoldOf(base), m, c), Beyond(m, c))
  }

  /** A drain that starts where `base` is, over the frames of `m` beyond it, ends settled. */
  lemma DrainSettles(s: Core, base: Core, m: map<nat, Event>) returns (c: nat)
    requires base.cursor.Some? && SameBut(base, s) && FiledIn(m) && s.buffered == Beyond(m, base.cursor.value)
    ensures IsStop(m, base.cursor.value, c) && View(Drain(s).0) == Settled(base, m, c)
  {
    c := DrainStops(s);
    assert forall k :: base.cursor.value < k ==> (k in m <==> k in s.buffered);
    RangeSame(FoldOf(base), m, s.buffered, c);
    assert Beyond(s.buffered, c) == Beyond(m, c);
  }

  lemma SnapshotSettles(s: Core, snap: Snapshot, base: Core) returns (c: nat)
    requires s.generation == snap.generation && FiledIn(s.buffered)
    requires base == Install(s.(buffered := map[], revision := 0, staleEvents := 0), snap)
    ensures IsStop(s.buffered, snap.cursor, c) && View(ApplySnapshot(s, snap).0) == Settled(base, s.buffered, c)
  {
    c := DrainSettles(Install(s, snap), base, s.buffered);
  }

  /** A replica in which the frames `m` have settled up to `c`. */
  ghost predicate SettledAt(s: Core, base: Core, m: map<nat, Event>, c: nat) {
    && base.cursor.Some? && FiledIn(m) && IsStop(m, base.cursor.value, c)
    && View(s) == Settled(base, m, c)
  }

  /** A frame at or below the cursor, or already waiting, changes nothing. */
  lemma KnownFrame(s: Core, base: Core, m: map<nat, Event>, c: nat, e: Event)
    requires SettledAt(s, base, m, c)
    requires e.generation == s.generation && (e.cursor in m ==> m[e.cursor] == e) && (e.cursor <= c || e.cursor in m)
    ensures SettledAt(ApplyEvent(s, e).core, base, m[e.cursor := e], c)
  {
    var m' := m[e.cursor := e];
    assert s.cursor == Some(c) && s.buffered == Beyond(m, c);
    assert ApplyEvent(s, e).core == s;
    assert Beyond(m', c) == Beyond(m, c);
    RangeSame(FoldOf(base), m, m', c);
  }

  /** A frame beyond the first missing cursor waits. */
  lemma FrameWaits(s: Core, base: Core, f: Fold, b: map<nat, Event>, e: Event)
    requires View(s) == At(base, f, b)
    requires e.generation == s.generation && e.cursor > f.cursor + 1 && e.cursor !in b && |b| < s.maxBuffered
    ensures View(ApplyEvent(s, e).core) == At(base, f, b[e.cursor := e])
  {
    assert s.cursor == Some(f.cursor) && s.buffered == b;
    assert e.cursor in b[e.cursor := e];
  }

  lemma WaitingFrame(s: Core, base: Core, m: map<nat, Event>, c: nat, e: Event)
    requires SettledAt(s, base, m, c)
    requires e.generation == s.generation && e.cursor > c + 1 && e.cursor !in m && |m| < s.maxBuffered
    ensures SettledAt(ApplyEvent(s, e).core, base, m[e.cursor := e], c)
  {
    var m' := m[e.cursor := e];
    FewerBeyond(m, c);
    FrameWaits(s, base, Range(FoldOf(base), m, c), Beyond(m, c), e);
    assert Beyond(m', c) == Beyond(m, c)[e.cursor := e];
    RangeSame(FoldOf(base), m, m', c);
  }

  /** Delivering the first missing frame is a drain that starts from the payloads applied so far. */
  lemma GapDrain(s: Core, base: Core, f: Fold, b: map<nat, Event>, e: Event) returns (t: Core)
    requires View(s) == At(base, f, b) && (forall k :: k in b ==> b[k].cursor == k && k > f.cursor + 1)
    requires e.generation == s.generation && e.cursor == f.cursor + 1
    ensures SameBut(With(base, Step(f, e)), t) && t.buffered == b
    ensures View(ApplyEvent(s, e).core) == View(Drain(t).0)
  {
    var s1 := ApplyPayload(s, e);
    t := s1.(phase := base.phase, replayFrom := base.replayFrom);
    assert s.cursor == Some(f.cursor) && s.buffered == b;
    RestForgets(s1, t);
    assert ApplyEvent(s, e).core == Bump(Drain(s1).0);
  }

  lemma RangeThrough(f: Fold, m: map<nat, Event>, c: nat, e: Event, c': nat)
    requires f.cursor <= c && Covers(m, f.cursor, c) && e.cursor == c + 1 <= c' && Covers(m[e.cursor := e], c + 1, c')
    ensures Covers(m[e.cursor := e], f.cursor, c')
    ensures Range(f, m[e.cursor := e], c') == Range(Step(Range(f, m, c), e), m[e.cursor := e], c')
  {
    var m' := m[e.cursor := e];
    RangeSame(f, m, m', c);
    RangeSplit(f, m', c, c');
  }

  /** It releases everything contiguous behind it. */
  lemma GapCloses(s: Core, base: Core, m: map<nat, Event>, c: nat, e: Event) returns (c': nat)
    requires SettledAt(s, base, m, c) && e.generation == s.generation && e.cursor == c + 1
    ensures SettledAt(ApplyEvent(s, e).core, base, m[e.cursor := e], c')
  {
    var m' := m[e.cursor := e];
    var f := Range(FoldOf(base), m, c);
    assert Beyond(m, c) == Beyond(m', c + 1);
    var t := GapDrain(s, base, f, Beyond(m, c), e);
    c' := DrainSettles(t, With(base, Step(f, e)), m');
    RangeThrough(FoldOf(base), m, c, e, c');
    SettledOver(base, Step(f, e), m', c');
  }

  lemma SettledOver(base: Core, f: Fold, m: map<nat, Event>, c: nat)
    requires base.cursor.Some? && FiledIn(m) && IsStop(m, f.cursor, c) && IsStop(m, base.cursor.value, c)
    requires Range(FoldOf(base), m, c) == Range(f, m, c)
    ensures Settled(With(base, f), m, c) == Settled(base, m, c)
  {
  }

  lemma OneMore(m: map<nat, Event>, e: Event)
    requires e.cursor !in m
    ensures |m[e.cursor := e]| == |m| + 1
  {
    assert m[e.cursor := e].Keys == m.Keys + {e.cursor};
    assert |m.Keys + {e.cursor}| == |m.Keys| + 1;
  }

  /** One more frame: the replica settles on the larger set. */
  lemma FrameSettles(s: Core, base: Core, m: map<nat, Event>, c: nat, e: Event) returns (c': nat)
    requires SettledAt(s, base, m, c)
    requires e.generation == s.generation && (e.cursor in m ==> m[e.cursor] == e)
    requires |m[e.cursor := e]| <= s.maxBuffered
    ensures SettledAt(ApplyEvent(s, e).core, base, m[e.cursor := e], c')
  {
    c' := c;
    if e.cursor <= c || e.cursor in m {
      KnownFrame(s, base, m, c, e);
    } else if e.cursor == c + 1 {
      c' := GapCloses(s, base, m, c, e);
    } else {
      OneMore(m, e);
      WaitingFrame(s, base, m, c, e);
    }
  }

  /** The drain overwrites the phase and the replay point it started from. */
  lemma RestForgets(s: Core, s': Core)
    requires s.cursor.Some? && Filed(s) && s' == s.(phase := s'.phase, replayFrom := s'.replayFrom)
    ensures Drain(s).0 == Drain(s').0
  {
    DrainLoopIgnores(s, s');
  }

  lemma {:induction false} DrainLoopIgnores(s: Core, s': Core)
    requires s.cursor.Some? && Filed(s) && s' == s.(phase := s'.phase, replayFrom := s'.replayFrom)
    ensures DrainLoop(s').0 == DrainLoop(s).0.(phase := s'.phase, replayFrom := s'.replayFrom)
    ensures DrainLoop(s).0.cursor.Some?
    decreases |s.buffered|
  {
    var k0 := s.cursor.value + 1;
    if k0 in s.buffered {
      FewerBuffered(s.buffered, k0);
      DrainUnfolds(s);
      DrainUnfolds(s');
      var next := ApplyPayload(s.(buffered := s.buffered - {k0}), s.buffered[k0]);
      DrainLoopIgnores(next, next.(phase := s'.phase, replayFrom := s'.replayFrom));
    }
  }

  // ---- arrangements ----------------------------------------------------------------

  /** The frames of one generation, by cursor. */
  ghost predicate Content(ev: nat -> Event, g: nat) {
    forall k: nat :: ev(k).cursor == k && ev(k).generation == g
  }

  /** Frames of the generation in any order and number, and the snapshot at most once. */
  ghost predicate Arranged(inputs: seq<Input>, ev: nat -> Event, snap: Snapshot) {
    && (forall i :: 0 <= i < |inputs| ==>
          inputs[i] == Snap(snap) || (inputs[i].Frame? && inputs[i].event == ev(inputs[i].event.cursor)))
    && (forall i, j :: 0 <= i < |inputs| && 0 <= j < |inputs| && inputs[i].Snap? && inputs[j].Snap? ==> i == j)
  }

  ghost predicate HasSnap(inputs: seq<Input>) {
    exists i :: 0 <= i < |inputs| && inputs[i].Snap?
  }

  function Cursors(inputs: seq<Input>): set<nat> {
    set i | 0 <= i < |inputs| && inputs[i].Frame? :: inputs[i].event.cursor
  }

  function Frames(ev: nat -> Event, cursors: set<nat>): map<nat, Event> {
    map k | k in cursors :: ev(k)
  }

  ghost predicate ReadyFor(s: Core, snap: Snapshot) {
    s.generation == snap.generation && s.cursor == None && s.buffered == map[]
  }

  function Base(s: Core, snap: Snapshot): Core {
    Install(View(s), snap)
  }

  lemma CursorsGrow(inputs: seq<Input>)
    requires inputs != []
    ensures
      var init, last := inputs[..|inputs| - 1], inputs[|inputs| - 1];
      && Cursors(inputs) == (if last.Frame? then Cursors(init) + {last.event.cursor} else Cursors(init))
      && (HasSnap(inputs) <==> HasSnap(init) || last.Snap?)
  {
    var init, last := inputs[..|inputs| - 1], inputs[|inputs| - 1];
    var grown := if last.Frame? then Cursors(init) + {last.event.cursor} else Cursors(init);
    forall k ensures k in Cursors(inputs) <==> k in grown {
      if k in Cursors(inputs) {
        var i :| 0 <= i < |inputs| && inputs[i].Frame? && inputs[i].event.cursor == k;
        assert i < |init| ==> init[i] == inputs[i];
      }
      if k in Cursors(init) {
        var i :| 0 <= i < |init| && init[i].Frame? && init[i].event.cursor == k;
        assert inputs[i] == init[i];
      }
    }
    if HasSnap(inputs) && !last.Snap? {
      var i :| 0 <= i < |inputs| && inputs[i].Snap?;
      assert init[i].Snap?;
    }
    if HasSnap(init) {
      var i :| 0 <= i < |init| && init[i].Snap?;
      assert inputs[i].Snap?;
    }
  }

  /** Where any arrangement has got to: everything buffered, or settled on what it has seen. */
  ghost predicate Progress(s0: Core, s: Core, snap: Snapshot, m: map<nat, Event>, snapped: bool) {
    && FiledIn(m)
    && if !snapped then s == s0.(buffered := m, revision := s.revision)
       else exists c: nat :: SettledAt(s, Base(s0, snap), m, c)
  }

  /** Before the snapshot every frame waits under its cursor. */
  lemma EarlyFrame(s: Core, e: Event)
    requires s.cursor.None? && e.generation == s.generation && |s.buffered[e.cursor := e]| <= s.maxBuffered
    ensures
      var r := ApplyEvent(s, e).core;
      r == s.(buffered := s.buffered[e.cursor := e], revision := r.revision)
  {
    if e.cursor !in s.buffered {
      OneMore(s.buffered, e);
    }
  }

  lemma ProgressFrame(s0: Core, s: Core, snap: Snapshot, m: map<nat, Event>, snapped: bool, e: Event)
    requires ReadyFor(s0, snap) && Progress(s0, s, snap, m, snapped)
    requires e.generation == snap.generation && (e.cursor in m ==> m[e.cursor] == e)
    requires |m[e.cursor := e]| <= s0.maxBuffered
    ensures Progress(s0, ApplyEvent(s, e).core, snap, m[e.cursor := e], snapped)
  {
    if snapped {
      var c: nat :| SettledAt(s, Base(s0, snap), m, c);
      var c' := FrameSettles(s, Base(s0, snap), m, c, e);
    } else {
      EarlyFrame(s, e);
    }
  }

  lemma ProgressSnap(s0: Core, s: Core, snap: Snapshot, m: map<nat, Event>)
    requires ReadyFor(s0, snap) && Progress(s0, s, snap, m, false)
    ensures Progress(s0, ApplySnapshot(s, snap).0, snap, m, true)
  {
    assert s.(buffered := map[], revision := 0, staleEvents := 0) == View(s0);
    var c := SnapshotSettles(s, snap, Base(s0, snap));
    assert SettledAt(ApplySnapshot(s, snap).0, Base(s0, snap), m, c);
  }

  lemma FramesGrow(ev: nat -> Event, cursors: set<nat>, e: Event)
    requires e == ev(e.cursor)
    ensures Frames(ev, cursors + {e.cursor}) == Frames(ev, cursors)[e.cursor := e]
    ensures |Frames(ev, cursors + {e.cursor})| == |cursors + {e.cursor}|
  {
    assert Frames(ev, cursors + {e.cursor}).Keys == cursors + {e.cursor};
  }

  /** Progress after a prefix, stated over the inputs. */
  ghost predicate ProgressOf(s0: Core, inputs: seq<Input>, ev: nat -> Event, snap: Snapshot) {
    Progress(s0, FeedAll(s0, inputs), snap, Frames(ev, Cursors(inputs)), HasSnap(inputs))
  }

  lemma NextFrame(s0: Core, init: seq<Input>, inputs: seq<Input>, ev: nat -> Event, snap: Snapshot, e: Event)
    requires inputs == init + [Frame(e)] && e == ev(e.cursor) && e.generation == snap.generation
    requires ReadyFor(s0, snap) && |Cursors(inputs)| <= s0.maxBuffered && ProgressOf(s0, init, ev, snap)
    ensures ProgressOf(s0, inputs, ev, snap)
  {
    CursorsGrow(inputs);
    assert inputs[..|inputs| - 1] == init;
    FramesGrow(ev, Cursors(init), e);
    ProgressFrame(s0, FeedAll(s0, init), snap, Frames(ev, Cursors(init)), HasSnap(init), e);
  }

  lemma NextSnap(s0: Core, init: seq<Input>, inputs: seq<Input>, ev: nat -> Event, snap: Snapshot)
    requires inputs == init + [Snap(snap)] && !HasSnap(init)
    requires ReadyFor(s0, snap) && ProgressOf(s0, init, ev, snap)
    ensures ProgressOf(s0, inputs, ev, snap)
  {
    CursorsGrow(inputs);
    assert inputs[..|inputs| - 1] == init;
    ProgressSnap(s0, FeedAll(s0, init), snap, Frames(ev, Cursors(init)));
  }

  lemma NextInput(s0: Core, init: seq<Input>, inputs: seq<Input>, ev: nat -> Event, snap: Snapshot)
    requires inputs != [] && init == inputs[..|inputs| - 1]
    requires ReadyFor(s0, snap) && Content(ev, snap.generation) && Arranged(inputs, ev, snap)
    requires |Cursors(inputs)| <= s0.maxBuffered && ProgressOf(s0, init, ev, snap)
    ensures ProgressOf(s0, inputs, ev, snap)
  {
    var last := inputs[|inputs| - 1];
    assert inputs == init + [last];
    if last.Frame? {
      assert ev(last.event.cursor).generation == snap.generation;
      NextFrame(s0, init, inputs, ev, snap, last.event);
    } else {
      assert forall i :: 0 <= i < |init| ==> init[i] == inputs[i] && !inputs[i].Snap?;
      NextSnap(s0, init, inputs, ev, snap);
    }
  }

  lemma {:induction false} ArrangementProgress(s0: Core, inputs: seq<Input>, ev: nat -> Event, snap: Snapshot)
    requires ReadyFor(s0, snap) && Content(ev, snap.generation) && Arranged(inputs, ev, snap)
    requires |Cursors(inputs)| <= s0.maxBuffered
    ensures ProgressOf(s0, inputs, ev, snap)
    decreases |inputs|
  {
    if inputs == [] {
      assert Frames(ev, Cursors(inputs)) == map[];
    } else {
      var init := inputs[..|inputs| - 1];
      CursorsGrow(inputs);
      SubsetSize(Cursors(init), Cursors(inputs));
      ArrangementProgress(s0, init, ev, snap);
      NextInput(s0, init, inputs, ev, snap);
    }
  }

  /** The first frame or snapshot of a newer generation fences whatever the replica held before. */
  lemma {:induction false} FencedFirst(s: Core, inputs: seq<Input>, ev: nat -> Event, snap: Snapshot)
    requires s.generation < snap.generation && Content(ev, snap.generation) && Arranged(inputs, ev, snap) &&
             inputs != []
    ensures FeedAll(s, inputs) == FeedAll(Fence(s, snap.generation), inputs)
    decreases |inputs|
  {
    var init, last := inputs[..|inputs| - 1], inputs[|inputs| - 1];
    if init == [] {
      assert last.Frame? ==> ev(last.event.cursor).generation == snap.generation;
      assert Install(s, snap) == Install(Fence(s, snap.generation), snap);
      assert Feed(s, last) == Feed(Fence(s, snap.generation), last);
      assert FeedAll(s, init) == s;
    } else {
      FencedFirst(s, init, ev, snap);
    }
  }

  /** A replica that has not heard of the snapshot's generation, or has and holds nothing of it yet. */
  ghost predicate Unserved(s: Core, snap: Snapshot) {
    s.generation < snap.generation || ReadyFor(s, snap)
  }

  /**
   Two arrangements of the same snapshot and the same distinct frames, with any duplicates,
   leave the replica in the same state: cursor, keys, members, validation, buffer, phase,
   replay point and stamp. The replica may be in any state of an older generation.
   */
  lemma BootstrapConfluence(s0: Core, a: seq<Input>, b: seq<Input>, ev: nat -> Event, snap: Snapshot)
    requires Unserved(s0, snap) && Content(ev, snap.generation)
    requires Arranged(a, ev, snap) && Arranged(b, ev, snap) && HasSnap(a) && HasSnap(b)
    requires Cursors(a) == Cursors(b) && |Cursors(a)| <= s0.maxBuffered
    ensures View(FeedAll(s0, a)) == View(FeedAll(s0, b))
  {
    if s0.generation < snap.generation {
      FencedFirst(s0, a, ev, snap);
      FencedFirst(s0, b, ev, snap);
      ReadyConfluence(Fence(s0, snap.generation), a, b, ev, snap);
    } else {
      ReadyConfluence(s0, a, b, ev, snap);
    }
  }

  lemma ReadyConfluence(s0: Core, a: seq<Input>, b: seq<Input>, ev: nat -> Event, snap: Snapshot)
    requires ReadyFor(s0, snap) && Content(ev, snap.generation)
    requires Arranged(a, ev, snap) && Arranged(b, ev, snap) && HasSnap(a) && HasSnap(b)
    requires Cursors(a) == Cursors(b) && |Cursors(a)| <= s0.maxBuffered
    ensures View(FeedAll(s0, a)) == View(FeedAll(s0, b))
  {
    ArrangementProgress(s0, a, ev, snap);
    ArrangementProgress(s0, b, ev, snap);
    var m := Frames(ev, Cursors(a));
    var c: nat :| SettledAt(FeedAll(s0, a), Base(s0, snap), m, c);
    var c': nat :| SettledAt(FeedAll(s0, b), Base(s0, snap), m, c');
    StopUnique(m, snap.cursor, c, c');
  }
}
