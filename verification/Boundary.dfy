/**
 Snapshot-plus-event bootstrap: a generation-fenced replica with a bounded reorder buffer.
 The functions give the new state of each operation; `BoundaryIngressCore` is the object that
 updates its fields in place.
 */
module Boundary {
  import opened Prelude

  type Key(==, !new)
  type Payload(==, !new)

  datatype Envelope = Envelope(key: Key, generation: nat, sequence: nat, stampedAt: nat, payload: Payload)

  datatype Validation = Valid | Invalid

  datatype Phase = Detached | Bootstrapping | Live | ReplayRequired | Backpressured | Rejected

  datatype Change = Upsert(envelope: Envelope) | Remove(key: Key) | Validate(validation: Validation)

  datatype Event = Event(generation: nat, cursor: nat, stampedAt: nat, change: Change)

  datatype Snapshot = Snapshot(
    generation: nat, cursor: nat, stampedAt: nat, entries: seq<Envelope>, members: seq<string>, validation: Validation)

  datatype Action = Admit(envelope: Envelope) | Close(key: Key)

  datatype Core = Core(
    maxBuffered: nat,
    phase: Phase,
    generation: nat,
    cursor: Option<nat>,
    buffered: map<nat, Event>,
    keys: set<Key>,
    members: set<string>,
    validation: Validation,
    replayFrom: Option<nat>,
    staleEvents: nat,
    lastStampedAt: Option<nat>,
    revision: nat)

  function NewCore(maxBuffered: nat): Core {
    Core(maxBuffered, Detached, 0, None, map[], {}, {}, Valid, None, 0, None, 0)
  }

  function Bump(s: Core): Core {
    s.(revision := s.revision + 1)
  }

  function KeysOf(entries: seq<Envelope>): set<Key> {
    set e | e in entries :: e.key
  }

  function Resting(v: Validation): Phase {
    if v.Valid? then Live else Rejected
  }

  /** `subscribe`: everything of the previous generation is fenced off. */
  function Subscribe(s: Core, generation: nat): Core {
    if generation < s.generation then s
    else
      Bump(s.(generation := generation, cursor := None, buffered := map[], keys := {}, members := {},
              validation := Valid, replayFrom := None, phase := Bootstrapping))
  }

  function ChangeKeys(keys: set<Key>, c: Change): set<Key> {
    match c
    case Upsert(e) => keys + {e.key}
    case Remove(k) => keys - {k}
    case Validate(_) => keys
  }

  function ChangeValidation(v: Validation, c: Change): Validation {
    if c.Validate? then c.validation else v
  }

  function ChangeActions(c: Change): seq<Action> {
    match c
    case Upsert(e) => [Admit(e)]
    case Remove(k) => [Close(k)]
    case Validate(_) => []
  }

  /** `apply_payload` */
  function ApplyPayload(s: Core, e: Event): Core {
    s.(cursor := Some(e.cursor), lastStampedAt := Some(e.stampedAt), keys := ChangeKeys(s.keys, e.change),
       validation := ChangeValidation(s.validation, e.change))
  }

  /** The `while` loop of `drain_contiguous`, with the actions it emits. */
  function DrainLoop(s: Core): (Core, seq<Action>)
    decreases |s.buffered|
  {
    if s.cursor.Some? && s.cursor.value + 1 in s.buffered then
      var e := s.buffered[s.cursor.value + 1];
      var rest := s.buffered - {s.cursor.value + 1};
      FewerBuffered(s.buffered, s.cursor.value + 1);
      var (s', more) := DrainLoop(ApplyPayload(s.(buffered := rest), e));
      (s', ChangeActions(e.change) + more)
    else (s, [])
  }

  lemma FewerBuffered(m: map<nat, Event>, k: nat)
    requires k in m
    ensures |m - {k}| < |m|
  {
    assert (m - {k}).Keys == m.Keys - {k};
    assert |(m - {k}).Keys| < |m.Keys|;
  }

  lemma DrainUnfolds(s: Core)
    requires s.cursor.Some? && s.cursor.value + 1 in s.buffered
    ensures
      var e := s.buffered[s.cursor.value + 1];
      var next := ApplyPayload(s.(buffered := s.buffered - {s.cursor.value + 1}), e);
      DrainLoop(s) == (DrainLoop(next).0, ChangeActions(e.change) + DrainLoop(next).1)
  {
  }

  /** The tail of `drain_contiguous`: the phase follows from what is left in the buffer. */
  function Rest(s: Core): Core {
    if s.cursor.None? then s
    else if |s.buffered| == 0 then s.(replayFrom := None, phase := Resting(s.validation))
    else s.(replayFrom := Some(s.cursor.value + 1), phase := ReplayRequired)
  }

  function Drain(s: Core): (Core, seq<Action>) {
    var (s', actions) := DrainLoop(s);
    (Rest(s'), actions)
  }

  /** What a snapshot installs before the buffered successors are drained. */
  function Install(s: Core, snap: Snapshot): Core {
    var kept := if snap.generation > s.generation then map[] else s.buffered;
    s.(generation := snap.generation, keys := KeysOf(snap.entries), members := Elems(snap.members),
       validation := snap.validation, cursor := Some(snap.cursor), lastStampedAt := Some(snap.stampedAt),
       replayFrom := None, phase := Resting(snap.validation),
       buffered := map k | k in kept && k > snap.cursor :: kept[k])
  }

  /** `apply_snapshot`: the new state, and the actions that follow the closes and admissions. */
  function ApplySnapshot(s: Core, snap: Snapshot): (Core, seq<Action>) {
    if snap.generation < s.generation then (Bump(s.(staleEvents := s.staleEvents + 1)), [])
    else
      var (s', actions) := Drain(Install(s, snap));
      (Bump(s'), actions)
  }

  /** An event of a newer generation resets the replica before it is considered. */
  function Fence(s: Core, generation: nat): Core {
    if generation > s.generation then
      s.(generation := generation, cursor := None, buffered := map[], keys := {}, members := {},
         phase := Bootstrapping, replayFrom := None)
    else s
  }

  datatype Outcome = Outcome(core: Core, actions: seq<Action>, changed: bool)

  /** `apply_event` */
  function ApplyEvent(s0: Core, e: Event): Outcome {
    if e.generation < s0.generation then Outcome(Bump(s0.(staleEvents := s0.staleEvents + 1)), [], true)
    else
      var s := Fence(s0, e.generation);
      if s.cursor.None? then
        if |s.buffered| >= s.maxBuffered && e.cursor !in s.buffered then
          Outcome(Bump(s.(phase := Backpressured, replayFrom := Some(0))), [], true)
        else
          var isNew := e.cursor !in s.buffered;
          var s1 := s.(buffered := s.buffered[e.cursor := e]);
          Outcome(if isNew then Bump(s1) else s1, [], isNew)
      else
        var c := s.cursor.value;
        if e.cursor <= c || e.cursor in s.buffered then Outcome(s, [], false)
        else if e.cursor == c + 1 then
          var (s', more) := Drain(ApplyPayload(s, e));
          Outcome(Bump(s'), ChangeActions(e.change) + more, true)
        else if |s.buffered| >= s.maxBuffered then
          Outcome(Bump(s.(phase := Backpressured, replayFrom := Some(c + 1))), [], true)
        else
          var s1 := s.(buffered := s.buffered[e.cursor := e], phase := ReplayRequired, replayFrom := Some(c + 1));
          Outcome(Bump(s1), [], true)
  }

  // ---- membership ----------------------------------------------------------------

  function MemberJoin(s: Core, m: string): Core {
    if m in s.members then s else Bump(s.(members := s.members + {m}))
  }

  function MemberLeave(s: Core, m: string): Core {
    if m in s.members then Bump(s.(members := s.members - {m})) else s
  }

  // ---- inputs and runs -----------------------------------------------------------

  datatype Input =
    | SubscribeTo(generation: nat)
    | Snap(snapshot: Snapshot)
    | Frame(event: Event)
    | Join(member: string)
    | Leave(member: string)

  /** The new state and the actions of the event plane; a snapshot's own closes and admissions are not repeated here. */
  function Feed(s: Core, i: Input): (Core, seq<Action>) {
    match i
    case SubscribeTo(g) => (Subscribe(s, g), [])
    case Snap(snap) => ApplySnapshot(s, snap)
    case Frame(e) => (ApplyEvent(s, e).core, ApplyEvent(s, e).actions)
    case Join(m) => (MemberJoin(s, m), [])
    case Leave(m) => (MemberLeave(s, m), [])
  }

  function FeedAll(s: Core, inputs: seq<Input>): Core {
    if inputs == [] then s else Feed(FeedAll(s, inputs[..|inputs| - 1]), inputs[|inputs| - 1]).0
  }
}

/** The adapter object: fields updated in place, one method per operation. */
module BoundaryIngress {
  import opened Prelude
  import opened Ordering
  import opened Boundary

  class BoundaryIngressCore {
    const maxBuffered: nat
    const keyOrder: (Key, Key) -> bool
    var phase: Phase
    var generation: nat
    var cursor: Option<nat>
    var buffered: map<nat, Event>
    var sourceKeys: set<Key>
    var members: set<string>
    var validation: Validation
    var replayFrom: Option<nat>
    var staleEvents: nat
    var lastStampedAt: Option<nat>
    var revision: nat

    ghost function State(): Core
      reads this
    {
      Core(maxBuffered, phase, generation, cursor, buffered, sourceKeys, members, validation, replayFrom,
           staleEvents, lastStampedAt, revision)
    }

    constructor (limit: nat, le: (Key, Key) -> bool)
      ensures State() == NewCore(limit) && keyOrder == le
    {
      maxBuffered, keyOrder := limit, le;
      phase, generation, cursor, buffered, sourceKeys := Detached, 0, None, map[], {};
      members, validation, replayFrom, staleEvents := {}, Valid, None, 0;
      lastStampedAt, revision := None, 0;
    }

    method HotSubscribe(g: nat) returns (changed: bool)
      modifies this
      ensures State() == Subscribe(old(State()), g) && changed == (g >= old(generation))
    {
      if g < generation {
        return false;
      }
      generation := g;
      cursor := None;
      buffered := map[];
      sourceKeys := {};
      members := {};
      validation := Valid;
      replayFrom := None;
      phase := Bootstrapping;
      revision := revision + 1;
      return true;
    }

    method ApplyOne(e: Event) returns (actions: seq<Action>)
      modifies `cursor, `lastStampedAt, `sourceKeys, `validation
      ensures State() == ApplyPayload(old(State()), e) && actions == ChangeActions(e.change)
    {
      cursor := Some(e.cursor);
      lastStampedAt := Some(e.stampedAt);
      match e.change
      case Upsert(envelope) =>
        sourceKeys := sourceKeys + {envelope.key};
        actions := [Admit(envelope)];
      case Remove(key) =>
        sourceKeys := sourceKeys - {key};
        actions := [Close(key)];
      case Validate(v) =>
        validation := v;
        actions := [];
    }

    method DrainBuffered() returns (actions: seq<Action>)
      requires cursor.Some?
      modifies `cursor, `lastStampedAt, `sourceKeys, `validation, `buffered
      ensures State() == DrainLoop(old(State())).0 && actions == DrainLoop(old(State())).1
      ensures cursor.Some?
    {
      actions := [];
      while cursor.value + 1 in buffered
        invariant cursor.Some?
        invariant DrainLoop(old(State())).0 == DrainLoop(State()).0
        invariant DrainLoop(old(State())).1 == actions + DrainLoop(State()).1
        decreases |buffered|
      {
        ghost var before := State();
        var e := buffered[cursor.value + 1];
        FewerBuffered(buffered, cursor.value + 1);
        buffered := buffered - {cursor.value + 1};
        var more := ApplyOne(e);
        DrainUnfolds(before);
        assert actions + (more + DrainLoop(State()).1) == (actions + more) + DrainLoop(State()).1;
        actions := actions + more;
      }
    }

    method DrainContiguous() returns (actions: seq<Action>)
      modifies `cursor, `lastStampedAt, `sourceKeys, `validation, `buffered, `phase, `replayFrom
      ensures State() == Drain(old(State())).0 && actions == Drain(old(State())).1
    {
      if cursor.None? {
        return [];
      }
      actions := DrainBuffered();
      if |buffered| == 0 {
        replayFrom := None;
        phase := if validation.Valid? then Live else Rejected;
      } else {
        replayFrom := Some(cursor.value + 1);
        phase := ReplayRequired;
      }
    }

    method Replace(snap: Snapshot)
      requires snap.generation >= generation
      modifies this
      ensures State() == Install(old(State()), snap)
    {
      if snap.generation > generation {
        generation := snap.generation;
        buffered := map[];
      }
      sourceKeys := KeysOf(snap.entries);
      members := Elems(snap.members);
      validation := snap.validation;
      cursor := Some(snap.cursor);
      lastStampedAt := Some(snap.stampedAt);
      replayFrom := None;
      phase := if validation.Valid? then Live else Rejected;
      buffered := map k | k in buffered && k > snap.cursor :: buffered[k];
    }

    /** `apply_snapshot`: the keys closed, the entries admitted, then the drained successors. */
    method InstallSnapshot(snap: Snapshot)
      returns (closed: seq<Key>, admitted: seq<Envelope>, actions: seq<Action>, changed: bool)
      requires TotalOrder(keyOrder)
      modifies this
      ensures changed
      ensures State() == ApplySnapshot(old(State()), snap).0 && actions == ApplySnapshot(old(State()), snap).1
      ensures NoDup(closed) && Sorted(closed, keyOrder)
      ensures forall k :: k in closed <==>
                && k in old(sourceKeys) && snap.generation >= old(generation)
                && forall e :: e in snap.entries ==> e.key != k
      ensures admitted == if snap.generation < old(generation) then [] else snap.entries
    {
      if snap.generation < generation {
        staleEvents := staleEvents + 1;
        revision := revision + 1;
        return [], [], [], true;
      }
      closed := InOrder(sourceKeys - KeysOf(snap.entries), keyOrder);
      assert forall k :: k in closed <==> k in Elems(closed);
      Replace(snap);
      admitted := snap.entries;
      actions := DrainContiguous();
      revision := revision + 1;
      changed := true;
    }

    method FenceTo(g: nat)
      modifies `generation, `cursor, `buffered, `sourceKeys, `members, `phase, `replayFrom
      ensures State() == Fence(old(State()), g)
    {
      if g > generation {
        generation := g;
        cursor := None;
        buffered := map[];
        sourceKeys := {};
        members := {};
        phase := Bootstrapping;
        replayFrom := None;
      }
    }

    /** No snapshot yet: every frame waits, up to the bound. */
    method HoldEarly(e: Event) returns (changed: bool)
      requires cursor.None? && e.generation == generation
      modifies `buffered, `phase, `replayFrom, `revision
      ensures Outcome(State(), [], changed) == ApplyEvent(old(State()), e)
    {
      if |buffered| >= maxBuffered && e.cursor !in buffered {
        phase := Backpressured;
        replayFrom := Some(0);
        revision := revision + 1;
        return true;
      }
      changed := e.cursor !in buffered;
      buffered := buffered[e.cursor := e];
      if changed {
        revision := revision + 1;
      }
    }

    /** A frame beyond the next cursor waits for the gap to close, up to the bound. */
    method HoldGap(e: Event)
      requires cursor.Some? && e.generation == generation && e.cursor > cursor.value + 1 && e.cursor !in buffered
      modifies `buffered, `phase, `replayFrom, `revision
      ensures Outcome(State(), [], true) == ApplyEvent(old(State()), e)
    {
      if |buffered| >= maxBuffered {
        phase := Backpressured;
      } else {
        buffered := buffered[e.cursor := e];
        phase := ReplayRequired;
      }
      replayFrom := Some(cursor.value + 1);
      revision := revision + 1;
    }

    method PublishEvent(e: Event) returns (actions: seq<Action>, changed: bool)
      modifies this
      ensures Outcome(State(), actions, changed) == ApplyEvent(old(State()), e)
    {
      if e.generation < generation {
        staleEvents := staleEvents + 1;
        revision := revision + 1;
        return [], true;
      }
      FenceTo(e.generation);
      if cursor.None? {
        changed := HoldEarly(e);
        return [], changed;
      }
      if e.cursor <= cursor.value || e.cursor in buffered {
        return [], false;
      }
      if e.cursor == cursor.value + 1 {
        var first := ApplyOne(e);
        var more := DrainContiguous();
        revision := revision + 1;
        return first + more, true;
      }
      HoldGap(e);
      return [], true;
    }

    method JoinMember(m: string) returns (changed: bool)
      modifies `members, `revision
      ensures State() == MemberJoin(old(State()), m) && changed == (m !in old(members))
    {
      changed := m !in members;
      if changed {
        members := members + {m};
        revision := revision + 1;
      }
    }

    method LeaveMember(m: string) returns (changed: bool)
      modifies `members, `revision
      ensures State() == MemberLeave(old(State()), m) && changed == (m in old(members))
    {
      changed := m in members;
      if changed {
        members := members - {m};
        revision := revision + 1;
      }
    }
  }
}
