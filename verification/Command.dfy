/**
 The command plane: submissions, progress events, cancels and causal receipts folded into a
 queryable projection. Receipts alone are terminal authority; everything else is progress.
 */
module Command {
  import opened Prelude

  datatype Outcome = Observed | Accepted | Applied | Rejected

  datatype EventKind = Observed | Accepted | Started | Progress | Cancelled | Superseded | TimedOut

  datatype Status = Submitted | Accepted | Running | Applied | Rejected | Cancelled | Superseded | TimedOut

  datatype Submit = Submit(commandId: string, generation: nat)

  datatype Event = Event(eventId: string, commandId: string, kind: EventKind, generation: nat)

  datatype Cancel = Cancel(causationId: string, commandId: string, generation: nat)

  datatype Receipt = Receipt(
    receiptId: string, causationId: string, generation: nat, outcome: Outcome, reason: Option<string>)

  datatype Entry = Entry(
    commandId: string,
    status: Status,
    terminal: bool,
    generation: nat,
    reason: Option<string>,
    receiptId: Option<string>,
    lastEventId: Option<string>)

  datatype Image = Image(generation: nat, commands: seq<Entry>)

  datatype Projection = Projection(
    generation: nat,
    entries: map<string, Entry>,
    seenEvents: set<string>,
    seenReceipts: set<string>,
    seenCancels: set<string>,
    conflicts: set<string>)

  datatype Verdict =
    | Recorded
    | Duplicate
    | Unknown
    | StaleGeneration(expected: nat, actual: nat)
    | TerminalConflict(commandId: string, existing: Status, incoming: Status)

  const EMPTY := Projection(0, map[], {}, {}, {}, {})

  predicate IsTerminal(o: Outcome) {
    o.Applied? || o.Rejected?
  }

  predicate Settles(r: Receipt) {
    IsTerminal(r.outcome)
  }

  /** `terminal_status_of` */
  function TerminalStatus(o: Outcome, reason: Option<string>): Status {
    match o
    case Applied => Status.Applied
    case Rejected =>
      if reason == Some("cancelled") then Status.Cancelled
      else if reason == Some("superseded") then Status.Superseded
      else if reason == Some("timed_out") then Status.TimedOut
      else Status.Rejected
    case _ => Status.Accepted
  }

  function StatusOf(r: Receipt): Status {
    TerminalStatus(r.outcome, r.reason)
  }

  /** `progress_status_of` */
  function ProgressStatus(k: EventKind): Option<Status> {
    match k
    case Observed => Some(Status.Accepted)
    case Accepted => Some(Status.Accepted)
    case Started => Some(Running)
    case Progress => Some(Running)
    case _ => None
  }

  /** `phase_rank` */
  function PhaseRank(s: Status): nat {
    match s
    case Submitted => 0
    case Accepted => 1
    case Running => 2
    case _ => 3
  }

  function NewEntry(s: Submit): Entry {
    Entry(s.commandId, Submitted, false, s.generation, None, None, None)
  }

  function Max(a: nat, b: nat): nat {
    if a >= b then a else b
  }

  function SubmitTo(p: Projection, s: Submit): (Projection, Verdict) {
    if s.commandId in p.entries then (p, Duplicate)
    else (p.(generation := Max(p.generation, s.generation), entries := p.entries[s.commandId := NewEntry(s)]), Recorded)
  }

  /** Non-terminal progress towards `next`, never backwards. */
  function Advance(e: Entry, next: Option<Status>): Entry {
    if !e.terminal && next.Some? && PhaseRank(next.value) >= PhaseRank(e.status) then e.(status := next.value) else e
  }

  function EventTo(p: Projection, v: Event): (Projection, Verdict) {
    if v.eventId in p.seenEvents then (p, Duplicate)
    else if v.commandId !in p.entries then (p, Unknown)
    else
      var e := p.entries[v.commandId];
      if v.generation != e.generation then (p, StaleGeneration(e.generation, v.generation))
      else
        (p.(seenEvents := p.seenEvents + {v.eventId},
            entries := p.entries[v.commandId := Advance(e.(lastEventId := Some(v.eventId)), ProgressStatus(v.kind))]),
         Recorded)
  }

  function CancelTo(p: Projection, c: Cancel): (Projection, Verdict) {
    if c.causationId in p.seenCancels then (p, Duplicate)
    else if c.commandId !in p.entries then (p, Unknown)
    else
      var e := p.entries[c.commandId];
      if c.generation != e.generation then (p, StaleGeneration(e.generation, c.generation))
      else (p.(seenCancels := p.seenCancels + {c.causationId}), Recorded)
  }

  function Settle(e: Entry, r: Receipt): Entry {
    e.(terminal := true, status := StatusOf(r), reason := r.reason, receiptId := Some(r.receiptId))
  }

  function ReceiptTo(p: Projection, r: Receipt): (Projection, Verdict) {
    if r.receiptId in p.seenReceipts then (p, Duplicate)
    else if r.causationId !in p.entries then (p, Unknown)
    else
      var e := p.entries[r.causationId];
      if r.generation != e.generation then (p, StaleGeneration(e.generation, r.generation))
      else if Settles(r) && e.terminal && e.status != StatusOf(r) then
        (p.(conflicts := p.conflicts + {r.causationId}), TerminalConflict(r.causationId, e.status, StatusOf(r)))
      else
        var next :=
          if !Settles(r) then Advance(e, Some(Status.Accepted))
          else if e.terminal then e
          else Settle(e, r);
        (p.(seenReceipts := p.seenReceipts + {r.receiptId}, entries := p.entries[r.causationId := next]), Recorded)
  }

  function Mark(ids: set<string>, id: Option<string>): set<string> {
    if id.Some? then ids + {id.value} else ids
  }

  function PutEntry(p: Projection, e: Entry): Projection {
    p.(entries := p.entries[e.commandId := e], seenEvents := Mark(p.seenEvents, e.lastEventId),
       seenReceipts := Mark(p.seenReceipts, e.receiptId))
  }

  function PutAll(p: Projection, commands: seq<Entry>): Projection {
    if commands == [] then p else PutEntry(PutAll(p, commands[..|commands| - 1]), commands[|commands| - 1])
  }

  /** `apply_projection` */
  function ImageTo(p: Projection, image: Image): Projection {
    PutAll(p.(generation := Max(p.generation, image.generation)), image.commands)
  }

  function Ids(commands: seq<Entry>): set<string> {
    set e | e in commands :: e.commandId
  }

  /** An image lists every entry once. */
  ghost predicate IsImage(p: Projection, image: Image) {
    && image.generation == p.generation
    && (forall i, j :: 0 <= i < j < |image.commands| ==> image.commands[i].commandId != image.commands[j].commandId)
    && (forall e :: e in image.commands ==> e.commandId in p.entries && p.entries[e.commandId] == e)
    && Ids(image.commands) == p.entries.Keys
  }

  datatype CallState = Pending | Resolved(entry: Entry) | Conflict

  /** `poll_call` */
  function PollCall(p: Projection, c: string): CallState {
    if c in p.conflicts then Conflict
    else if c in p.entries && p.entries[c].terminal then Resolved(p.entries[c])
    else Pending
  }

  // ---- traffic -------------------------------------------------------------------

  /** Everything but a resync image. */
  datatype Input =
    | Submission(submit: Submit)
    | Progressing(event: Event)
    | Cancelling(cancel: Cancel)
    | Receiving(receipt: Receipt)

  function Step(p: Projection, i: Input): (Projection, Verdict) {
    match i
    case Submission(s) => SubmitTo(p, s)
    case Progressing(v) => EventTo(p, v)
    case Cancelling(c) => CancelTo(p, c)
    case Receiving(r) => ReceiptTo(p, r)
  }

  function Run(p: Projection, inputs: seq<Input>): Projection {
    if inputs == [] then p else Step(Run(p, inputs[..|inputs| - 1]), inputs[|inputs| - 1]).0
  }

  function AsTraffic(events: seq<Event>): seq<Input> {
    seq(|events|, i requires 0 <= i < |events| => Progressing(events[i]))
  }

  lemma {:induction false} RunSplits(p: Projection, a: seq<Input>, b: seq<Input>)
    ensures Run(p, a + b) == Run(Run(p, a), b)
    decreases |b|
  {
    if b == [] {
      assert a + b == a;
    } else {
      var ab, init := a + b, b[..|b| - 1];
      assert ab[..|ab| - 1] == a + init;
      RunSplits(p, a, init);
    }
  }
}

/** The projection object and its folds in place. */
module CommandPlane {
  import opened Prelude
  import opened Ordering
  import opened Command

  class CommandProjection {
    var generation: nat
    var entries: map<string, Entry>
    var seenEventIds: set<string>
    var seenReceiptIds: set<string>
    var seenCancelIds: set<string>
    var conflicts: set<string>

    ghost function State(): Projection
      reads this
    {
      Projection(generation, entries, seenEventIds, seenReceiptIds, seenCancelIds, conflicts)
    }

    /** Entries are filed under their own command id. */
    ghost predicate Valid()
      reads this
    {
      forall c :: c in entries ==> entries[c].commandId == c
    }

    constructor ()
      ensures Valid() && State() == EMPTY
    {
      generation, entries, conflicts := 0, map[], {};
      seenEventIds, seenReceiptIds, seenCancelIds := {}, {}, {};
    }

    method FoldSubmit(s: Submit) returns (v: Verdict)
      requires Valid()
      modifies `generation, `entries
      ensures Valid()
      ensures (State(), v) == SubmitTo(old(State()), s)
    {
      if s.commandId in entries {
        return Duplicate;
      }
      generation := Max(generation, s.generation);
      entries := entries[s.commandId := Entry(s.commandId, Submitted, false, s.generation, None, None, None)];
      return Recorded;
    }

    method FoldEvent(e: Event) returns (v: Verdict)
      requires Valid()
      modifies `entries, `seenEventIds
      ensures Valid()
      ensures (State(), v) == EventTo(old(State()), e)
    {
      if e.eventId in seenEventIds {
        return Duplicate;
      }
      if e.commandId !in entries {
        return Unknown;
      }
      var entry := entries[e.commandId];
      if e.generation != entry.generation {
        return StaleGeneration(entry.generation, e.generation);
      }
      seenEventIds := seenEventIds + {e.eventId};
      entry := entry.(lastEventId := Some(e.eventId));
      if !entry.terminal {
        var next := ProgressStatus(e.kind);
        if next.Some? && PhaseRank(next.value) >= PhaseRank(entry.status) {
          entry := entry.(status := next.value);
        }
      }
      entries := entries[e.commandId := entry];
      return Recorded;
    }

    method FoldCancel(c: Cancel) returns (v: Verdict)
      requires Valid()
      modifies `seenCancelIds
      ensures Valid()
      ensures (State(), v) == CancelTo(old(State()), c)
    {
      if c.causationId in seenCancelIds {
        return Duplicate;
      }
      if c.commandId !in entries {
        return Unknown;
      }
      if c.generation != entries[c.commandId].generation {
        return StaleGeneration(entries[c.commandId].generation, c.generation);
      }
      seenCancelIds := seenCancelIds + {c.causationId};
      return Recorded;
    }

    method ObserveReceipt(r: Receipt) returns (v: Verdict)
      requires Valid()
      modifies `entries, `seenReceiptIds, `conflicts
      ensures Valid()
      ensures (State(), v) == ReceiptTo(old(State()), r)
    {
      if r.receiptId in seenReceiptIds {
        return Duplicate;
      }
      if r.causationId !in entries {
        return Unknown;
      }
      var entry := entries[r.causationId];
      if r.generation != entry.generation {
        return StaleGeneration(entry.generation, r.generation);
      }
      if !IsTerminal(r.outcome) {
        seenReceiptIds := seenReceiptIds + {r.receiptId};
        if !entry.terminal && PhaseRank(Status.Accepted) >= PhaseRank(entry.status) {
          entry := entry.(status := Status.Accepted);
        }
        entries := entries[r.causationId := entry];
        return Recorded;
      }
      var incoming := TerminalStatus(r.outcome, r.reason);
      if entry.terminal {
        if entry.status == incoming {
          seenReceiptIds := seenReceiptIds + {r.receiptId};
          assert entries == entries[r.causationId := entry];
          return Recorded;
        }
        conflicts := conflicts + {r.causationId};
        return TerminalConflict(r.causationId, entry.status, incoming);
      }
      seenReceiptIds := seenReceiptIds + {r.receiptId};
      entry := entry.(terminal := true, status := incoming, reason := r.reason, receiptId := Some(r.receiptId));
      entries := entries[r.causationId := entry];
      return Recorded;
    }

    /** A batch is the run of its events, in order. */
    method FoldEvents(events: seq<Event>) returns (last: Verdict)
      requires Valid()
      modifies `entries, `seenEventIds
      ensures Valid()
      ensures State() == Run(old(State()), AsTraffic(events))
      ensures events == [] ==> last == Unknown
      ensures
        events != [] ==>
          last == EventTo(Run(old(State()), AsTraffic(events[..|events| - 1])), events[|events| - 1]).1
    {
      last := Unknown;
      for i := 0 to |events|
        invariant Valid() && State() == Run(old(State()), AsTraffic(events[..i]))
        invariant i == 0 ==> last == Unknown
        invariant i > 0 ==> last == EventTo(Run(old(State()), AsTraffic(events[..i - 1])), events[i - 1]).1
      {
        assert AsTraffic(events[..i + 1])[..i] == AsTraffic(events[..i]);
        last := FoldEvent(events[i]);
      }
      assert events[..|events|] == events;
    }

    method ApplyProjection(image: Image)
      requires Valid()
      modifies `generation, `entries, `seenEventIds, `seenReceiptIds
      ensures Valid()
      ensures State() == ImageTo(old(State()), image)
    {
      generation := Max(generation, image.generation);
      ghost var start := State();
      for i := 0 to |image.commands|
        invariant Valid() && State() == PutAll(start, image.commands[..i])
      {
        var e := image.commands[i];
        assert image.commands[..i + 1][..i] == image.commands[..i];
        entries := entries[e.commandId := e];
        if e.lastEventId.Some? {
          seenEventIds := seenEventIds + {e.lastEventId.value};
        }
        if e.receiptId.Some? {
          seenReceiptIds := seenReceiptIds + {e.receiptId.value};
        }
      }
      assert image.commands[..|image.commands|] == image.commands;
    }

    method ToImage() returns (image: Image)
      requires Valid()
      ensures IsImage(State(), image)
      ensures forall i, j :: 0 <= i < j < |image.commands| ==>
                StringLe(image.commands[i].commandId, image.commands[j].commandId)
    {
      StringsAreOrdered();
      var ids := InOrder(entries.Keys, StringLe);
      assert forall c :: c in ids <==> c in Elems(ids);
      var commands: seq<Entry> := [];
      for i := 0 to |ids|
        invariant |commands| == i && forall k :: 0 <= k < i ==> commands[k] == entries[ids[k]]
      {
        commands := commands + [entries[ids[i]]];
      }
      image := Image(generation, commands);
      forall c | c in entries.Keys ensures c in Ids(commands) {
        var k :| 0 <= k < |ids| && ids[k] == c;
        assert commands[k] in commands;
      }
    }
  }
}
