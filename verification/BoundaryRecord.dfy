/** The records a replica keeps beside the replicated state: membership, stamps and counters, over every run. */
module BoundaryRecord {
  import opened Prelude
  import opened Boundary
  import opened BoundaryInvariants

  ghost function After(limit: nat, inputs: seq<Input>): Core {
    FeedAll(NewCore(limit), inputs)
  }

  lemma {:induction false} DrainFrame(s: Core)
    ensures
      var r := DrainLoop(s).0;
      r == s.(cursor := r.cursor, lastStampedAt := r.lastStampedAt, keys := r.keys, validation := r.validation,
              buffered := r.buffered)
    decreases |s.buffered|
  {
    if s.cursor.Some? && s.cursor.value + 1 in s.buffered {
      FewerBuffered(s.buffered, s.cursor.value + 1);
      DrainUnfolds(s);
      DrainFrame(ApplyPayload(s.(buffered := s.buffered - {s.cursor.value + 1}), s.buffered[s.cursor.value + 1]));
    }
  }

  /** A subscription that is not behind starts a new replica in all but its bound and its counters. */
  lemma SubscribeStartsOver(s: Core, g: nat)
    ensures g < s.generation ==> Subscribe(s, g) == s
    ensures g >= s.generation ==>
              Subscribe(s, g) == NewCore(s.maxBuffered).(generation := g, phase := Bootstrapping,
                staleEvents := s.staleEvents, lastStampedAt := s.lastStampedAt, revision := s.revision + 1)
  {
  }

  /** So does the first frame of a newer generation, but for the validation, which stays; the frame then waits. */
  lemma NewerFrameStartsOver(s: Core, e: Event)
    requires e.generation > s.generation && s.maxBuffered > 0
    ensures ApplyEvent(s, e).core ==
            Subscribe(s, e.generation).(validation := s.validation, buffered := map[e.cursor := e])
    ensures ApplyEvent(s, e).actions == [] && ApplyEvent(s, e).changed
  {
  }

  /** A frame that has to wait is kept if there is room, and otherwise refused with a request to replay. */
  lemma WaitingFrames(s: Core, e: Event)
    requires BoundaryInv(s) && e.generation == s.generation && e.cursor !in s.buffered
    requires s.cursor.Some? ==> e.cursor > s.cursor.value + 1
    ensures
      var r := ApplyEvent(s, e).core;
      && r.cursor == s.cursor && r.keys == s.keys && r.validation == s.validation && r.revision == s.revision + 1
      && (|s.buffered| < s.maxBuffered ==>
            && r.buffered == s.buffered[e.cursor := e]
            && r.phase == if s.cursor.Some? then ReplayRequired else s.phase)
      && (|s.buffered| == s.maxBuffered ==>
            r.buffered == s.buffered && r.phase == Backpressured && r.replayFrom == Some(FirstMissing(s)))
  {
  }

  // ---- members: the last word counts ------------------------------------------------------

  /** What input `i` says about member `m` to a replica of generation `g`, if anything. */
  function Says(g: nat, i: Input, m: string): Option<bool> {
    match i
    case SubscribeTo(g') => if g' >= g then Some(false) else None
    case Snap(s) => if s.generation >= g then Some(m in s.members) else None
    case Frame(e) => if e.generation > g then Some(false) else None
    case Join(x) => if x == m then Some(true) else None
    case Leave(x) => if x == m then Some(false) else None
  }

  /** The generation of the replica before each input. */
  ghost function Generations(limit: nat, inputs: seq<Input>): seq<nat> {
    seq(|inputs|, k requires 0 <= k < |inputs| => After(limit, inputs[..k]).generation)
  }

  lemma GenerationsInit(limit: nat, inputs: seq<Input>)
    requires inputs != []
    ensures
      var n := |inputs| - 1;
      Generations(limit, inputs) == Generations(limit, inputs[..n]) + [After(limit, inputs[..n]).generation]
  {
    var n := |inputs| - 1;
    forall k | 0 <= k < n ensures Generations(limit, inputs)[k] == Generations(limit, inputs[..n])[k] {
      assert inputs[..n][..k] == inputs[..k];
    }
  }

  /** The last of `inputs`, met at the generations `gens`, to say anything about `m` says that it is present. */
  ghost predicate LastSaid(gens: seq<nat>, inputs: seq<Input>, m: string)
    requires |gens| == |inputs|
  {
    exists k ::
      && 0 <= k < |inputs| && Says(gens[k], inputs[k], m) == Some(true)
      && forall j :: k < j < |inputs| ==> Says(gens[j], inputs[j], m) == None
  }

  lemma FeedMembers(s: Core, i: Input, m: string)
    ensures m in Feed(s, i).0.members <==>
            if Says(s.generation, i, m).Some? then Says(s.generation, i, m).value else m in s.members
  {
    match i
    case Snap(snap) => DrainFrame(Install(s, snap));
    case Frame(e) => DrainFrame(ApplyPayload(Fence(s, e.generation), e));
    case _ =>
  }

  lemma LastSaidStep(gens: seq<nat>, inputs: seq<Input>, g: nat, i: Input, m: string)
    requires |gens| == |inputs|
    ensures LastSaid(gens + [g], inputs + [i], m) <==>
            if Says(g, i, m).Some? then Says(g, i, m).value else LastSaid(gens, inputs, m)
  {
    var gens', inputs' := gens + [g], inputs + [i];
    assert Says(gens'[|inputs|], inputs'[|inputs|], m) == Says(g, i, m);
    if Says(g, i, m).None? && LastSaid(gens, inputs, m) {
      var k :| && 0 <= k < |inputs| && Says(gens[k], inputs[k], m) == Some(true)
               && forall j :: k < j < |inputs| ==> Says(gens[j], inputs[j], m) == None;
      assert Says(gens'[k], inputs'[k], m) == Some(true);
    }
    if Says(g, i, m).None? && LastSaid(gens', inputs', m) {
      var k :| && 0 <= k < |inputs'| && Says(gens'[k], inputs'[k], m) == Some(true)
               && forall j :: k < j < |inputs'| ==> Says(gens'[j], inputs'[j], m) == None;
      assert Says(gens[k], inputs[k], m) == Some(true);
      forall j | k < j < |inputs| ensures Says(gens[j], inputs[j], m) == None {
        assert Says(gens'[j], inputs'[j], m) == None;
      }
    }
  }

  /** A member is present if and only if the last input with anything to say about it says so. */
  lemma {:induction false} MembersFollow(limit: nat, inputs: seq<Input>, m: string)
    ensures m in After(limit, inputs).members <==> LastSaid(Generations(limit, inputs), inputs, m)
    decreases |inputs|
  {
    if inputs != [] {
      var n := |inputs| - 1;
      var s := After(limit, inputs[..n]);
      MembersFollow(limit, inputs[..n], m);
      FeedMembers(s, inputs[n], m);
      GenerationsInit(limit, inputs);
      LastSaidStep(Generations(limit, inputs[..n]), inputs[..n], s.generation, inputs[n], m);
      assert inputs == inputs[..n] + [inputs[n]];
    }
  }

  // ---- counters ----------------------------------------------------------------------------

  /** A frame or snapshot of a generation the replica has left behind. */
  predicate Outdated(g: nat, i: Input) {
    (i.Snap? && i.snapshot.generation < g) || (i.Frame? && i.event.generation < g)
  }

  function OutdatedIn(gens: seq<nat>, inputs: seq<Input>): set<nat>
    requires |gens| == |inputs|
  {
    set k: nat | k < |inputs| && Outdated(gens[k], inputs[k])
  }

  lemma OutdatedStep(gens: seq<nat>, inputs: seq<Input>, g: nat, i: Input)
    requires |gens| == |inputs|
    ensures |OutdatedIn(gens + [g], inputs + [i])| == |OutdatedIn(gens, inputs)| + if Outdated(g, i) then 1 else 0
  {
    assert OutdatedIn(gens + [g], inputs + [i]) == OutdatedIn(gens, inputs) + if Outdated(g, i) then {|inputs|} else {};
  }

  lemma FeedCounts(s: Core, i: Input)
    ensures Feed(s, i).0.staleEvents == s.staleEvents + if Outdated(s.generation, i) then 1 else 0
    ensures Outdated(s.generation, i) ==>
              Feed(s, i) == (s.(staleEvents := s.staleEvents + 1, revision := s.revision + 1), [])
  {
    match i
    case Snap(snap) => DrainFrame(Install(s, snap));
    case Frame(e) => DrainFrame(ApplyPayload(Fence(s, e.generation), e));
    case _ =>
  }

  /** The replica counts exactly the outdated inputs. */
  lemma {:induction false} OutdatedAreCounted(limit: nat, inputs: seq<Input>)
    ensures After(limit, inputs).staleEvents == |OutdatedIn(Generations(limit, inputs), inputs)|
    decreases |inputs|
  {
    if inputs != [] {
      var n := |inputs| - 1;
      var s := After(limit, inputs[..n]);
      OutdatedAreCounted(limit, inputs[..n]);
      FeedCounts(s, inputs[n]);
      GenerationsInit(limit, inputs);
      OutdatedStep(Generations(limit, inputs[..n]), inputs[..n], s.generation, inputs[n]);
      assert inputs == inputs[..n] + [inputs[n]];
    }
  }

  /** A frame is reported as a change exactly when the revision advances, and then by one. */
  lemma ChangeIsRevision(s: Core, e: Event)
    ensures ApplyEvent(s, e).core.revision == s.revision + if ApplyEvent(s, e).changed then 1 else 0
    ensures !ApplyEvent(s, e).changed ==>
              ApplyEvent(s, e).actions == []
              && ApplyEvent(s, e).core == s.(buffered := ApplyEvent(s, e).core.buffered)
              && ApplyEvent(s, e).core.buffered.Keys == s.buffered.Keys
  {
    DrainFrame(ApplyPayload(Fence(s, e.generation), e));
    if !ApplyEvent(s, e).changed && s.cursor.None? {
      assert s.buffered[e.cursor := e].Keys == s.buffered.Keys;
    }
  }

  // ---- stamps ----------------------------------------------------------------------------------

  /** Some input of generation `g` with cursor `c` was stamped at `t`. */
  ghost predicate Stamped(inputs: seq<Input>, g: nat, c: nat, t: nat) {
    exists i :: i in inputs &&
      ((i.Frame? && i.event.generation == g && i.event.cursor == c && i.event.stampedAt == t)
       || (i.Snap? && i.snapshot.generation == g && i.snapshot.cursor == c && i.snapshot.stampedAt == t))
  }

  ghost predicate StampOk(inputs: seq<Input>, s: Core) {
    && (forall k :: k in s.buffered ==> Frame(s.buffered[k]) in inputs)
    && (s.cursor.Some? ==>
          s.lastStampedAt.Some? && Stamped(inputs, s.generation, s.cursor.value, s.lastStampedAt.value))
  }

  lemma StampedMore(inputs: seq<Input>, i: Input, s: Core)
    requires StampOk(inputs, s)
    ensures StampOk(inputs + [i], s)
  {
    if s.cursor.Some? {
      var x :| x in inputs &&
        ((x.Frame? && x.event.generation == s.generation && x.event.cursor == s.cursor.value
          && x.event.stampedAt == s.lastStampedAt.value)
         || (x.Snap? && x.snapshot.generation == s.generation && x.snapshot.cursor == s.cursor.value
             && x.snapshot.stampedAt == s.lastStampedAt.value));
      assert x in inputs + [i];
    }
  }

  lemma {:induction false} DrainStamps(inputs: seq<Input>, s: Core)
    requires Filed(s) && StampOk(inputs, s) && forall k :: k in s.buffered ==> s.buffered[k].generation == s.generation
    ensures StampOk(inputs, DrainLoop(s).0)
    decreases |s.buffered|
  {
    var k0 := s.cursor.value + 1;
    if k0 in s.buffered {
      FewerBuffered(s.buffered, k0);
      DrainUnfolds(s);
      assert Frame(s.buffered[k0]) in inputs;
      DrainStamps(inputs, ApplyPayload(s.(buffered := s.buffered - {k0}), s.buffered[k0]));
    }
  }

  lemma FrameStamps(inputs: seq<Input>, s: Core, e: Event)
    requires BoundaryInv(s) && StampOk(inputs, s) && Frame(e) in inputs
    ensures StampOk(inputs, ApplyEvent(s, e).core)
  {
    if e.generation >= s.generation {
      var f := Fence(s, e.generation);
      if f.cursor.Some? && e.cursor == f.cursor.value + 1 {
        DrainStamps(inputs, ApplyPayload(f, e));
      }
    }
  }

  lemma SnapStamps(inputs: seq<Input>, s: Core, snap: Snapshot)
    requires BoundaryInv(s) && StampOk(inputs, s) && Snap(snap) in inputs
    ensures StampOk(inputs, ApplySnapshot(s, snap).0)
  {
    if snap.generation >= s.generation {
      DrainStamps(inputs, Install(s, snap));
    }
  }

  /** In every run, the last stamp is that of an input at the replica's own generation and cursor. */
  lemma {:induction false} StampIsOfCursor(limit: nat, inputs: seq<Input>)
    ensures StampOk(inputs, After(limit, inputs))
    decreases |inputs|
  {
    if inputs != [] {
      var n := |inputs| - 1;
      var s := After(limit, inputs[..n]);
      assert inputs == inputs[..n] + [inputs[n]];
      StampIsOfCursor(limit, inputs[..n]);
      StampedMore(inputs[..n], inputs[n], s);
      RunsKeepInvariants(limit, inputs[..n]);
      match inputs[n]
      case Frame(e) => FrameStamps(inputs, s, e);
      case Snap(snap) => SnapStamps(inputs, s, snap);
      case _ =>
    }
  }
}
