/** What the drain does in one piece, and the invariants of every run of the replica. */
module BoundaryInvariants {
  import opened Prelude
  import opened Boundary

  /** Buffered frames are filed under their own cursor, beyond the current one. */
  ghost predicate Filed(s: Core) {
    && s.cursor.Some?
    && forall k :: k in s.buffered ==> s.buffered[k].cursor == k && k > s.cursor.value
  }

  function Beyond(m: map<nat, Event>, c: nat): map<nat, Event> {
    map k | k in m && k > c :: m[k]
  }

  /** The part of the replica that payloads change. */
  datatype Fold = Fold(cursor: nat, stampedAt: Option<nat>, keys: set<Key>, validation: Validation)

  function FoldOf(s: Core): Fold
    requires s.cursor.Some?
  {
    Fold(s.cursor.value, s.lastStampedAt, s.keys, s.validation)
  }

  function With(s: Core, f: Fold): Core {
    s.(cursor := Some(f.cursor), lastStampedAt := f.stampedAt, keys := f.keys, validation := f.validation)
  }

  function Step(f: Fold, e: Event): Fold {
    Fold(e.cursor, Some(e.stampedAt), ChangeKeys(f.keys, e.change), ChangeValidation(f.validation, e.change))
  }

  ghost predicate Covers(m: map<nat, Event>, from: nat, c: nat) {
    forall k :: from < k <= c ==> k in m && m[k].cursor == k
  }

  /** The payloads at cursors `f.cursor + 1 .. c`, applied in cursor order. */
  ghost function Range(f: Fold, m: map<nat, Event>, c: nat): (r: Fold)
    requires f.cursor <= c && Covers(m, f.cursor, c)
    ensures r.cursor == c
    decreases c - f.cursor
  {
    if f.cursor == c then f else Range(Step(f, m[f.cursor + 1]), m, c)
  }

  /** A range depends on the frames inside it only. */
  lemma {:induction false} RangeSame(f: Fold, m: map<nat, Event>, m': map<nat, Event>, c: nat)
    requires f.cursor <= c && Covers(m, f.cursor, c) && Covers(m', f.cursor, c)
    requires forall k :: f.cursor < k <= c ==> m[k] == m'[k]
    ensures Range(f, m, c) == Range(f, m', c)
    decreases c - f.cursor
  {
    if f.cursor < c {
      RangeSame(Step(f, m[f.cursor + 1]), m, m', c);
    }
  }

  lemma {:induction false} RangeSplit(f: Fold, m: map<nat, Event>, b: nat, c: nat)
    requires f.cursor <= b <= c && Covers(m, f.cursor, c)
    ensures Range(f, m, c) == Range(Range(f, m, b), m, c)
    decreases b - f.cursor
  {
    if f.cursor < b {
      RangeSplit(Step(f, m[f.cursor + 1]), m, b, c);
    }
  }

  /** Taking the first frame out of the buffer and applying it, then the rest of the range. */
  lemma RangeTurn(f: Fold, m: map<nat, Event>, rest: map<nat, Event>, c: nat)
    requires f.cursor + 1 in m && m[f.cursor + 1].cursor == f.cursor + 1 <= c
    requires rest == m - {f.cursor + 1} && Covers(rest, f.cursor + 1, c)
    ensures Covers(m, f.cursor, c) && Beyond(rest, c) == Beyond(m, c)
    ensures Range(f, m, c) == Range(Step(f, m[f.cursor + 1]), rest, c)
  {
    forall k | f.cursor < k <= c ensures k in m && m[k].cursor == k {
      assert k == f.cursor + 1 || k in rest;
    }
    RangeSame(Step(f, m[f.cursor + 1]), m, rest, c);
  }

  /** The drain stops exactly at the first missing cursor, everything before it applied. */
  lemma {:induction false} DrainStops(s: Core) returns (c: nat)
    requires Filed(s)
    ensures s.cursor.value <= c && c + 1 !in s.buffered && Covers(s.buffered, s.cursor.value, c)
    ensures DrainLoop(s).0 == With(s, Range(FoldOf(s), s.buffered, c)).(buffered := Beyond(s.buffered, c))
    decreases |s.buffered|
  {
    var k0 := s.cursor.value + 1;
    if k0 in s.buffered {
      var next := ApplyPayload(s.(buffered := s.buffered - {k0}), s.buffered[k0]);
      FewerBuffered(s.buffered, k0);
      DrainUnfolds(s);
      c := DrainStops(next);
      RangeTurn(FoldOf(s), s.buffered, next.buffered, c);
    } else {
      c := s.cursor.value;
      assert Beyond(s.buffered, c) == s.buffered;
    }
  }

  // ---- invariants over every run -------------------------------------------------

  ghost predicate Pressing(p: Phase) {
    p.ReplayRequired? || p.Backpressured?
  }

  function FirstMissing(s: Core): nat {
    if s.cursor.Some? then s.cursor.value + 1 else 0
  }

  ghost predicate BoundaryInv(s: Core) {
    && |s.buffered| <= s.maxBuffered
    && (forall k :: k in s.buffered ==> s.buffered[k].generation == s.generation && s.buffered[k].cursor == k)
    && (s.cursor.Some? ==> forall k :: k in s.buffered ==> k > s.cursor.value + 1)
    && (s.replayFrom.Some? <==> Pressing(s.phase))
    && (s.replayFrom.Some? ==> s.replayFrom.value == FirstMissing(s))
    && (s.cursor.None? ==> !s.phase.Live? && !s.phase.Rejected? && !s.phase.ReplayRequired? && s.keys == {})
    && (s.cursor.Some? && |s.buffered| > 0 ==> Pressing(s.phase))
    && (s.cursor.Some? && |s.buffered| == 0 ==>
          s.phase == Resting(s.validation) || (s.phase.Backpressured? && s.maxBuffered == 0))
  }

  lemma FewerBeyond(m: map<nat, Event>, c: nat)
    ensures |Beyond(m, c)| <= |m|
  {
    assert Beyond(m, c).Keys <= m.Keys;
    SubsetSize(Beyond(m, c).Keys, m.Keys);
    assert |Beyond(m, c).Keys| == |Beyond(m, c)| && |m.Keys| == |m|;
  }

  lemma {:induction false} SubsetSize(a: set<nat>, b: set<nat>)
    requires a <= b
    ensures |a| <= |b|
    decreases |a|
  {
    if a != {} {
      var x :| x in a;
      SubsetSize(a - {x}, b - {x});
    }
  }

  lemma DrainKeeps(s: Core)
    requires Filed(s) && |s.buffered| <= s.maxBuffered
    requires forall k :: k in s.buffered ==> s.buffered[k].generation == s.generation
    ensures BoundaryInv(Drain(s).0)
    ensures Drain(s).0.generation == s.generation && Drain(s).0.maxBuffered == s.maxBuffered
  {
    var c := DrainStops(s);
    FewerBeyond(s.buffered, c);
  }

  lemma FenceKeeps(s: Core, g: nat)
    requires BoundaryInv(s)
    ensures BoundaryInv(Fence(s, g)) && Fence(s, g).maxBuffered == s.maxBuffered
  {
  }

  /** A frame that only waits: buffered, refused for lack of room, or already known. */
  lemma WaitingKeeps(s: Core, e: Event)
    requires BoundaryInv(s) && e.generation == s.generation
    requires s.cursor.Some? ==> e.cursor != s.cursor.value + 1
    ensures BoundaryInv(ApplyEvent(s, e).core) && ApplyEvent(s, e).core.maxBuffered == s.maxBuffered
    ensures ApplyEvent(s, e).core.generation == s.generation
  {
  }

  lemma EventKeeps(s: Core, e: Event)
    requires BoundaryInv(s)
    ensures BoundaryInv(ApplyEvent(s, e).core)
    ensures ApplyEvent(s, e).core.generation >= s.generation && ApplyEvent(s, e).core.maxBuffered == s.maxBuffered
  {
    if e.generation >= s.generation {
      var f := Fence(s, e.generation);
      FenceKeeps(s, e.generation);
      assert ApplyEvent(s, e) == ApplyEvent(f, e);
      if f.cursor.Some? && e.cursor == f.cursor.value + 1 {
        DrainKeeps(ApplyPayload(f, e));
      } else {
        WaitingKeeps(f, e);
      }
    }
  }

  lemma SnapshotKeeps(s: Core, snap: Snapshot)
    requires BoundaryInv(s)
    ensures BoundaryInv(ApplySnapshot(s, snap).0)
    ensures ApplySnapshot(s, snap).0.generation >= s.generation && ApplySnapshot(s, snap).0.maxBuffered == s.maxBuffered
  {
    if snap.generation >= s.generation {
      var kept := if snap.generation > s.generation then map[] else s.buffered;
      assert Install(s, snap).buffered == Beyond(kept, snap.cursor);
      FewerBeyond(kept, snap.cursor);
      DrainKeeps(Install(s, snap));
    }
  }

  lemma FeedKeeps(s: Core, i: Input)
    requires BoundaryInv(s)
    ensures BoundaryInv(Feed(s, i).0)
    ensures Feed(s, i).0.generation >= s.generation && Feed(s, i).0.maxBuffered == s.maxBuffered
  {
    match i
    case Snap(snap) => SnapshotKeeps(s, snap);
    case Frame(e) => EventKeeps(s, e);
    case _ =>
  }

  /**
   In every run: the buffer respects its bound, holds frames of the current generation beyond
   the next cursor only, and a replay is requested exactly under pressure, from the first
   missing cursor. With room to buffer, Live means complete and structurally valid.
   */
  lemma {:induction false} RunsKeepInvariants(limit: nat, inputs: seq<Input>)
    ensures
      var s := FeedAll(NewCore(limit), inputs);
      && BoundaryInv(s) && s.maxBuffered == limit
      && (s.replayFrom.Some? <==> s.phase.ReplayRequired? || s.phase.Backpressured?)
      && (s.replayFrom.Some? ==>
            if s.cursor.Some? then s.replayFrom.value == s.cursor.value + 1 && s.cursor.value + 1 !in s.buffered
            else s.replayFrom.value == 0)
      && (s.cursor.None? ==> s.keys == {} && (s.phase.Detached? || s.phase.Bootstrapping? || s.phase.Backpressured?))
      && (limit > 0 ==>
            && (s.phase.Live? <==> s.cursor.Some? && s.buffered == map[] && s.validation.Valid?)
            && (s.phase.Rejected? <==> s.cursor.Some? && s.buffered == map[] && s.validation.Invalid?))
    decreases |inputs|
  {
    if inputs != [] {
      RunsKeepInvariants(limit, inputs[..|inputs| - 1]);
      FeedKeeps(FeedAll(NewCore(limit), inputs[..|inputs| - 1]), inputs[|inputs| - 1]);
    }
    var s := FeedAll(NewCore(limit), inputs);
    assert |s.buffered| == 0 <==> s.buffered == map[];
  }

  lemma NextGeneration(limit: nat, init: seq<Input>, all: seq<Input>)
    requires all != [] && init == all[..|all| - 1]
    ensures FeedAll(NewCore(limit), init).generation <= FeedAll(NewCore(limit), all).generation
  {
    RunsKeepInvariants(limit, init);
    FeedKeeps(FeedAll(NewCore(limit), init), all[|all| - 1]);
  }

  /** The generation never decreases along a run. */
  lemma {:induction false} GenerationNeverFalls(limit: nat, inputs: seq<Input>, more: seq<Input>, all: seq<Input>)
    requires all == inputs + more
    ensures FeedAll(NewCore(limit), inputs).generation <= FeedAll(NewCore(limit), all).generation
    decreases |more|
  {
    if more == [] {
      assert all == inputs;
    } else {
      var init := all[..|all| - 1];
      assert init == inputs + more[..|more| - 1];
      GenerationNeverFalls(limit, inputs, more[..|more| - 1], init);
      NextGeneration(limit, init, all);
    }
  }
}

/** Against a log: exactly-once, in-order delivery under any reordering, duplication or loss. */
module Replication {
  import opened Prelude
  import opened Boundary
  import opened BoundaryInvariants

  /** A producer: one log per generation and the state it starts from. */
  datatype Producer = Producer(log: (nat, nat) -> Event, keys: nat -> set<Key>, validation: nat -> Validation)

  ghost predicate LogOk(p: Producer) {
    forall g: nat, c: nat :: p.log(g, c).generation == g && p.log(g, c).cursor == c
  }

  function KeysAt(p: Producer, g: nat, c: nat): set<Key> {
    if c == 0 then p.keys(g) else ChangeKeys(KeysAt(p, g, c - 1), p.log(g, c).change)
  }

  function ValidationAt(p: Producer, g: nat, c: nat): Validation {
    if c == 0 then p.validation(g) else ChangeValidation(ValidationAt(p, g, c - 1), p.log(g, c).change)
  }

  /** The log's actions at cursors `from + 1 .. to`, once each and in order. */
  function LogActions(p: Producer, g: nat, from: nat, to: nat): seq<Action>
    decreases to
  {
    if to <= from then [] else LogActions(p, g, from, to - 1) + ChangeActions(p.log(g, to).change)
  }

  // ---- what the log says, entry by entry --------------------------------------------

  /** The entry at cursor `j` upserts or removes key `k`. */
  predicate Mentions(p: Producer, g: nat, j: nat, k: Key) {
    var c := p.log(g, j).change;
    (c.Upsert? && c.envelope.key == k) || (c.Remove? && c.key == k)
  }

  /** Key `k` is present at cursor `c`: the last entry to mention it upserts it, or none does and it was there first. */
  ghost predicate Present(p: Producer, g: nat, c: nat, k: Key) {
    || (k in p.keys(g) && forall j :: 0 < j <= c ==> !Mentions(p, g, j, k))
    || (exists j ::
          && 0 < j <= c && Mentions(p, g, j, k) && p.log(g, j).change.Upsert?
          && forall i :: j < i <= c ==> !Mentions(p, g, i, k))
  }

  /** `v` is the validation at cursor `c`: that of the last entry to set one, or the first. */
  ghost predicate Validated(p: Producer, g: nat, c: nat, v: Validation) {
    || (v == p.validation(g) && forall j :: 0 < j <= c ==> !p.log(g, j).change.Validate?)
    || (exists j ::
          && 0 < j <= c && p.log(g, j).change == Validate(v)
          && forall i :: j < i <= c ==> !p.log(g, i).change.Validate?)
  }

  /** The action of one log entry that is not a validation: an upsert admits, a removal closes. */
  predicate ActsOn(c: Change, a: Action) {
    (c.Upsert? && a == Admit(c.envelope)) || (c.Remove? && a == Close(c.key))
  }

  /** `at` lists, in order, exactly the cursors beyond `from` up to `to` whose entries are not validations. */
  ghost predicate Lists(p: Producer, g: nat, from: nat, to: nat, at: seq<nat>) {
    && (forall i :: 0 <= i < |at| ==> from < at[i] <= to && !p.log(g, at[i]).change.Validate?)
    && (forall i, j :: 0 <= i < j < |at| ==> at[i] < at[j])
    && (forall c: nat :: from < c <= to && !p.log(g, c).change.Validate? ==> c in at)
  }

  /** One action per such entry, once each and in order. */
  ghost predicate Emitted(p: Producer, g: nat, from: nat, to: nat, actions: seq<Action>) {
    exists at :: Lists(p, g, from, to, at) && |at| == |actions| &&
      forall i :: 0 <= i < |at| ==> ActsOn(p.log(g, at[i]).change, actions[i])
  }

  lemma {:induction false} PresentIsFold(p: Producer, g: nat, c: nat, k: Key)
    ensures k in KeysAt(p, g, c) <==> Present(p, g, c, k)
    decreases c
  {
    if c > 0 {
      PresentIsFold(p, g, c - 1, k);
      if Mentions(p, g, c, k) {
        assert Present(p, g, c, k) <==> p.log(g, c).change.Upsert?;
      } else {
        assert Present(p, g, c, k) <==> Present(p, g, c - 1, k);
      }
    }
  }

  lemma {:induction false} ValidatedIsFold(p: Producer, g: nat, c: nat, v: Validation)
    ensures v == ValidationAt(p, g, c) <==> Validated(p, g, c, v)
    decreases c
  {
    if c > 0 {
      ValidatedIsFold(p, g, c - 1, v);
      if p.log(g, c).change.Validate? {
        assert Validated(p, g, c, v) <==> p.log(g, c).change == Validate(v);
      } else {
        assert Validated(p, g, c, v) <==> Validated(p, g, c - 1, v);
      }
    }
  }

  lemma {:induction false} ActionsAreEmitted(p: Producer, g: nat, from: nat, upto: nat) returns (at: seq<nat>)
    ensures Lists(p, g, from, upto, at) && |at| == |LogActions(p, g, from, upto)|
    ensures forall i :: 0 <= i < |at| ==> ActsOn(p.log(g, at[i]).change, LogActions(p, g, from, upto)[i])
    decreases upto
  {
    if upto <= from {
      at := [];
    } else {
      at := ActionsAreEmitted(p, g, from, upto - 1);
      if !p.log(g, upto).change.Validate? {
        at := at + [upto];
      }
    }
  }

  /** Frames come from the log of their generation; a snapshot lists what is present at its cursor. */
  ghost predicate Genuine(p: Producer, i: Input) {
    match i
    case Frame(e) => e == p.log(e.generation, e.cursor)
    case Snap(s) =>
      && (forall k :: (exists e :: e in s.entries && e.key == k) <==> Present(p, s.generation, s.cursor, k))
      && Validated(p, s.generation, s.cursor, s.validation)
    case _ => true
  }

  /** A genuine snapshot installs the log's own state at its cursor. */
  lemma SnapshotIsFold(p: Producer, s: Snapshot)
    requires Genuine(p, Snap(s))
    ensures KeysOf(s.entries) == KeysAt(p, s.generation, s.cursor)
    ensures s.validation == ValidationAt(p, s.generation, s.cursor)
  {
    forall k ensures k in KeysOf(s.entries) <==> k in KeysAt(p, s.generation, s.cursor) {
      PresentIsFold(p, s.generation, s.cursor, k);
    }
    ValidatedIsFold(p, s.generation, s.cursor, s.validation);
  }

  /** A run with history: the cursor of the last snapshot taken and the actions emitted since. */
  datatype Replica = Replica(core: Core, from: nat, since: seq<Action>)

  function Absorb(r: Replica, i: Input): Replica {
    var (core, actions) := Feed(r.core, i);
    if i.Snap? && i.snapshot.generation >= r.core.generation then Replica(core, i.snapshot.cursor, actions)
    else Replica(core, r.from, r.since + actions)
  }

  function AbsorbAll(r: Replica, inputs: seq<Input>): Replica {
    if inputs == [] then r else Absorb(AbsorbAll(r, inputs[..|inputs| - 1]), inputs[|inputs| - 1])
  }

  ghost predicate Buffers(p: Producer, s: Core) {
    forall k :: k in s.buffered ==> s.buffered[k] == p.log(s.generation, k)
  }

  /** State and emitted actions are those of the log up to the cursor. */
  ghost predicate InStep(p: Producer, s: Core, from: nat, since: seq<Action>) {
    s.cursor.Some? ==>
      && from <= s.cursor.value
      && s.keys == KeysAt(p, s.generation, s.cursor.value)
      && s.validation == ValidationAt(p, s.generation, s.cursor.value)
      && since == LogActions(p, s.generation, from, s.cursor.value)
  }

  /** Applying the next frame of the log moves the replica one entry along it. */
  lemma ApplyInStep(p: Producer, s: Core, from: nat, since: seq<Action>)
    requires LogOk(p) && s.cursor.Some? && InStep(p, s, from, since)
    ensures
      var e := p.log(s.generation, s.cursor.value + 1);
      InStep(p, ApplyPayload(s, e), from, since + ChangeActions(e.change))
  {
    assert p.log(s.generation, s.cursor.value + 1).cursor == s.cursor.value + 1;
  }

  /** The state after the first turn of the drain. */
  function FirstTurn(s: Core): Core
    requires s.cursor.Some? && s.cursor.value + 1 in s.buffered
  {
    ApplyPayload(s.(buffered := s.buffered - {s.cursor.value + 1}), s.buffered[s.cursor.value + 1])
  }

  lemma FirstTurnInStep(p: Producer, s: Core, from: nat, since: seq<Action>)
    requires LogOk(p) && Buffers(p, s) && s.cursor.Some? && InStep(p, s, from, since) &&
             s.cursor.value + 1 in s.buffered
    ensures Buffers(p, FirstTurn(s)) && FirstTurn(s).generation == s.generation && FirstTurn(s).cursor.Some?
    ensures InStep(p, FirstTurn(s), from, since + ChangeActions(s.buffered[s.cursor.value + 1].change))
    ensures |FirstTurn(s).buffered| < |s.buffered|
  {
    FewerBuffered(s.buffered, s.cursor.value + 1);
    ApplyInStep(p, s.(buffered := s.buffered - {s.cursor.value + 1}), from, since);
  }

  /** The whole drain is its first turn, then the drain of what follows. */
  lemma DrainTurns(s: Core, since: seq<Action>)
    requires s.cursor.Some? && s.cursor.value + 1 in s.buffered
    ensures DrainLoop(s).0 == DrainLoop(FirstTurn(s)).0
    ensures since + DrainLoop(s).1 ==
            since + ChangeActions(s.buffered[s.cursor.value + 1].change) + DrainLoop(FirstTurn(s)).1
  {
    DrainUnfolds(s);
    Regroup(since, ChangeActions(s.buffered[s.cursor.value + 1].change), DrainLoop(FirstTurn(s)).1);
  }

  lemma Regroup(a: seq<Action>, b: seq<Action>, c: seq<Action>)
    ensures a + (b + c) == a + b + c
  {
  }

  /** A later state of the same generation that is in step with what has been emitted. */
  ghost predicate Follows(p: Producer, g: nat, s: Core, from: nat, emitted: seq<Action>) {
    Buffers(p, s) && s.generation == g && s.cursor.Some? && InStep(p, s, from, emitted)
  }

  lemma {:induction false} DrainInStep(p: Producer, s: Core, from: nat, since: seq<Action>)
    requires LogOk(p) && Follows(p, s.generation, s, from, since)
    ensures Follows(p, s.generation, DrainLoop(s).0, from, since + DrainLoop(s).1)
    decreases |s.buffered|
  {
    if s.cursor.value + 1 in s.buffered {
      var first := ChangeActions(s.buffered[s.cursor.value + 1].change);
      FirstTurnInStep(p, s, from, since);
      DrainInStep(p, FirstTurn(s), from, since + first);
      DrainTurns(s, since);
    } else {
      assert DrainLoop(s) == (s, []);
      assert since + [] == since;
    }
  }

  /** The frame that closes the gap, and everything it releases. */
  lemma NextFrameInStep(p: Producer, s: Core, from: nat, since: seq<Action>, e: Event)
    requires LogOk(p) && Buffers(p, s) && s.cursor.Some? && InStep(p, s, from, since)
    requires e == p.log(s.generation, s.cursor.value + 1)
    ensures
      var s' := Drain(ApplyPayload(s, e)).0;
      var more := Drain(ApplyPayload(s, e)).1;
      Buffers(p, s') && InStep(p, s', from, since + (ChangeActions(e.change) + more))
  {
    var s1 := ApplyPayload(s, e);
    ApplyInStep(p, s, from, since);
    assert s1.cursor.Some?;
    DrainInStep(p, s1, from, since + ChangeActions(e.change));
    var more := DrainLoop(s1).1;
    assert since + (ChangeActions(e.change) + more) == since + ChangeActions(e.change) + more;
  }

  lemma EventInStep(p: Producer, r: Replica, e: Event)
    requires LogOk(p) && Buffers(p, r.core) && InStep(p, r.core, r.from, r.since) && Genuine(p, Frame(e))
    ensures
      var o := ApplyEvent(r.core, e);
      Buffers(p, o.core) && InStep(p, o.core, r.from, r.since + o.actions)
  {
    assert r.since + [] == r.since;
    if e.generation >= r.core.generation {
      var s := Fence(r.core, e.generation);
      if s.cursor.Some? && e.cursor == s.cursor.value + 1 && e.cursor !in s.buffered {
        NextFrameInStep(p, s, r.from, r.since, e);
      }
    }
  }

  lemma AbsorbInStep(p: Producer, r: Replica, i: Input)
    requires LogOk(p) && Buffers(p, r.core) && InStep(p, r.core, r.from, r.since) && Genuine(p, i)
    ensures Buffers(p, Absorb(r, i).core) && InStep(p, Absorb(r, i).core, Absorb(r, i).from, Absorb(r, i).since)
  {
    assert r.since + [] == r.since;
    match i
    case Frame(e) => EventInStep(p, r, e);
    case Snap(snap) =>
      SnapshotIsFold(p, snap);
      if snap.generation >= r.core.generation {
        DrainInStep(p, Install(r.core, snap), snap.cursor, []);
        assert [] + DrainLoop(Install(r.core, snap)).1 == DrainLoop(Install(r.core, snap)).1;
      }
    case _ =>
  }

  lemma {:induction false} RunInStep(p: Producer, limit: nat, inputs: seq<Input>)
    requires LogOk(p) && forall k :: 0 <= k < |inputs| ==> Genuine(p, inputs[k])
    ensures
      var r := AbsorbAll(Replica(NewCore(limit), 0, []), inputs);
      Buffers(p, r.core) && InStep(p, r.core, r.from, r.since)
    decreases |inputs|
  {
    if inputs != [] {
      var init := inputs[..|inputs| - 1];
      RunInStep(p, limit, init);
      AbsorbInStep(p, AbsorbAll(Replica(NewCore(limit), 0, []), init), inputs[|inputs| - 1]);
    }
  }

  /**
   Exactly once, in order: after any run of genuine inputs, in a replica with cursor `c`, a key is
   held if and only if the last log entry up to `c` to mention it upserts it, or none does and it
   was there first; the validation is that of the last entry to set one, or the first; and since its
   last snapshot it has emitted one admission per upsert and one close per removal up to `c`, in
   log order. What it still holds back are entries of the log.
   */
  lemma ExactlyOnceInOrder(p: Producer, limit: nat, inputs: seq<Input>)
    requires LogOk(p) && forall k :: 0 <= k < |inputs| ==> Genuine(p, inputs[k])
    ensures
      var r := AbsorbAll(Replica(NewCore(limit), 0, []), inputs);
      var g := r.core.generation;
      && (forall c :: c in r.core.buffered ==> r.core.buffered[c] == p.log(g, c))
      && (r.core.cursor.Some? ==>
            && r.from <= r.core.cursor.value
            && (forall k :: k in r.core.keys <==> Present(p, g, r.core.cursor.value, k))
            && Validated(p, g, r.core.cursor.value, r.core.validation)
            && Emitted(p, g, r.from, r.core.cursor.value, r.since))
  {
    RunInStep(p, limit, inputs);
    var r := AbsorbAll(Replica(NewCore(limit), 0, []), inputs);
    if r.core.cursor.Some? {
      var g, c := r.core.generation, r.core.cursor.value;
      forall k ensures k in r.core.keys <==> Present(p, g, c, k) {
        PresentIsFold(p, g, c, k);
      }
      ValidatedIsFold(p, g, c, r.core.validation);
      var at := ActionsAreEmitted(p, g, r.from, c);
    }
  }
}
