/** Terminal authority over every run: only a receipt ends a command, and nothing reopens it. */
module CommandPermanence {
  import opened Prelude
  import opened Command
  import opened CommandContent

  ghost predicate SoundEntry(e: Entry) {
    && (e.terminal <==> PhaseRank(e.status) == 3)
    && (e.terminal <==> e.receiptId.Some?)
    && (!e.terminal ==> e.reason.None?)
  }

  ghost predicate Sound(p: Projection) {
    && (forall c :: c in p.entries ==> SoundEntry(p.entries[c]))
    && (forall c :: c in p.conflicts ==> c in p.entries && p.entries[c].terminal)
  }

  /** What later traffic may do to an entry. */
  ghost predicate Onward(e: Entry, f: Entry) {
    && f.commandId == e.commandId && f.generation == e.generation
    && PhaseRank(e.status) <= PhaseRank(f.status)
    && (e.terminal ==> f.terminal && f.status == e.status && f.reason == e.reason && f.receiptId == e.receiptId)
  }

  lemma StepSound(p: Projection, i: Input)
    requires Sound(p)
    ensures Sound(Step(p, i).0)
  {
  }

  lemma StepOnward(p: Projection, i: Input, c: string)
    requires Sound(p) && c in p.entries
    ensures c in Step(p, i).0.entries && Onward(p.entries[c], Step(p, i).0.entries[c])
    ensures p.conflicts <= Step(p, i).0.conflicts
  {
    assert SoundEntry(p.entries[c]);
  }

  lemma {:induction false} RunSound(inputs: seq<Input>)
    ensures Sound(Run(EMPTY, inputs))
    decreases |inputs|
  {
    if inputs != [] {
      RunSound(inputs[..|inputs| - 1]);
      StepSound(Run(EMPTY, inputs[..|inputs| - 1]), inputs[|inputs| - 1]);
    }
  }

  /** A terminal outcome is permanent, and progress never regresses. */
  lemma {:induction false} TerminalIsPermanent(inputs: seq<Input>, more: seq<Input>, c: string)
    requires c in Run(EMPTY, inputs).entries
    ensures
      var p := Run(EMPTY, inputs);
      var q := Run(EMPTY, inputs + more);
      && c in q.entries
      && q.entries[c].generation == p.entries[c].generation
      && PhaseRank(p.entries[c].status) <= PhaseRank(q.entries[c].status)
      && (p.entries[c].terminal ==>
            && q.entries[c].terminal && q.entries[c].status == p.entries[c].status
            && q.entries[c].reason == p.entries[c].reason && q.entries[c].receiptId == p.entries[c].receiptId)
      && p.conflicts <= q.conflicts
    decreases |more|
  {
    if more == [] {
      assert inputs + more == inputs;
    } else {
      var all, init := inputs + more, more[..|more| - 1];
      assert all[..|all| - 1] == inputs + init;
      TerminalIsPermanent(inputs, init, c);
      RunSound(inputs + init);
      StepOnward(Run(EMPTY, inputs + init), all[|all| - 1], c);
    }
  }

  /** The receipt at `k` ended `c`, which was open until then. */
  ghost predicate EndedAt(inputs: seq<Input>, c: string, k: nat) {
    && k < |inputs| && inputs[k].Receiving?
    && var r := inputs[k].receipt;
       var p := Run(EMPTY, inputs[..k]);
       var e := Run(EMPTY, inputs).entries;
       && r.causationId == c
       && c in p.entries && !p.entries[c].terminal && p.entries[c].generation == r.generation
       && c in e && e[c].generation == r.generation
       && Reports(r, e[c].status) && e[c].reason == r.reason && e[c].receiptId == Some(r.receiptId)
  }

  /**
   A command is terminal only through one terminal receipt of its own generation, and its status
   is the one that the receipt reports.
   */
  lemma {:induction false} EndedByReceipt(inputs: seq<Input>, c: string) returns (k: nat)
    requires c in Run(EMPTY, inputs).entries && Run(EMPTY, inputs).entries[c].terminal
    ensures EndedAt(inputs, c, k)
    decreases |inputs|
  {
    var n := |inputs| - 1;
    var init, last := inputs[..n], inputs[n];
    var p := Run(EMPTY, init);
    RunSound(init);
    if c in p.entries && p.entries[c].terminal {
      k := EndedByReceipt(init, c);
      assert init[..k] == inputs[..k];
      StepOnward(p, last, c);
    } else {
      k := n;
      if last.Receiving? {
        StatusReports(last.receipt);
      }
    }
  }

  function CallRank(s: CallState): nat {
    match s
    case Pending => 0
    case Resolved(_) => 1
    case Conflict => 2
  }

  /** A call moves from pending to resolved to conflict only, and a resolution never changes. */
  lemma CallsMoveForward(inputs: seq<Input>, more: seq<Input>, c: string)
    ensures
      var before := PollCall(Run(EMPTY, inputs), c);
      var after := PollCall(Run(EMPTY, inputs + more), c);
      && CallRank(before) <= CallRank(after)
      && (before.Resolved? && after.Resolved? ==>
            && after.entry.status == before.entry.status && after.entry.reason == before.entry.reason
            && after.entry.receiptId == before.entry.receiptId)
  {
    RunSound(inputs);
    if c in Run(EMPTY, inputs).entries {
      TerminalIsPermanent(inputs, more, c);
    }
  }
}

/** Ids that determine content, as every redelivery of one fact carries the same fact. */
module CommandContent {
  import opened Prelude
  import opened Command

  datatype Content = Content(event: string -> Event, receipt: string -> Receipt)

  ghost predicate Genuine(k: Content, i: Input) {
    && (i.Progressing? ==> i.event == k.event(i.event.eventId))
    && (i.Receiving? ==> i.receipt == k.receipt(i.receipt.receiptId))
  }

  /** Which terminal status a receipt stands for, read from the status. */
  predicate Reports(r: Receipt, st: Status) {
    match st
    case Applied => r.outcome == Outcome.Applied
    case Cancelled => r.outcome == Outcome.Rejected && r.reason == Some("cancelled")
    case Superseded => r.outcome == Outcome.Rejected && r.reason == Some("superseded")
    case TimedOut => r.outcome == Outcome.Rejected && r.reason == Some("timed_out")
    case Rejected =>
      && r.outcome == Outcome.Rejected
      && r.reason != Some("cancelled") && r.reason != Some("superseded") && r.reason != Some("timed_out")
    case _ => false
  }

  /** A receipt reports one status if its outcome is applied or rejected, and none otherwise. */
  lemma StatusReports(r: Receipt)
    ensures Settles(r) <==> r.outcome == Outcome.Applied || r.outcome == Outcome.Rejected
    ensures forall st :: Reports(r, st) <==> Settles(r) && st == StatusOf(r)
  {
  }

  /** Which phase a progress event shows. */
  predicate Shows(v: Event, st: Status) {
    || (st.Accepted? && (v.kind == EventKind.Observed || v.kind == EventKind.Accepted))
    || (st.Running? && (v.kind == EventKind.Started || v.kind == EventKind.Progress))
  }
}

/** Order and duplication of the same facts do not matter. */
module CommandConvergence {
  import opened Prelude
  import opened Command
  import opened CommandContent
  import opened CommandRecord

  // ---- what a set of facts says about a command -----------------------------------

  /** A receipt for this command and generation. */
  predicate ReceiptFor(i: Input, c: string, g: nat) {
    i.Receiving? && i.receipt.causationId == c && i.receipt.generation == g
  }

  /** A progress event for this command and generation. */
  predicate EventFor(i: Input, c: string, g: nat) {
    i.Progressing? && i.event.commandId == c && i.event.generation == g
  }

  /** The fact `i` ends the command with status `st`. */
  predicate EndsIt(i: Input, c: string, g: nat, st: Status) {
    ReceiptFor(i, c, g) && Reports(i.receipt, st)
  }

  /** The fact `i` moves an open command to at least `st`. */
  predicate MovesIt(i: Input, c: string, g: nat, st: Status) {
    || (EventFor(i, c, g) && Shows(i.event, st))
    || (st.Accepted? && ReceiptFor(i, c, g)
        && (i.receipt.outcome == Outcome.Observed || i.receipt.outcome == Outcome.Accepted))
  }

  ghost predicate Ends(facts: set<Input>, c: string, g: nat, st: Status) {
    exists i :: i in facts && EndsIt(i, c, g, st)
  }

  ghost predicate Ended(facts: set<Input>, c: string, g: nat) {
    exists st :: Ends(facts, c, g, st)
  }

  ghost predicate Disputed(facts: set<Input>, c: string, g: nat) {
    exists st, st' :: st != st' && Ends(facts, c, g, st) && Ends(facts, c, g, st')
  }

  ghost predicate Moves(facts: set<Input>, c: string, g: nat, st: Status) {
    exists i :: i in facts && MovesIt(i, c, g, st)
  }

  ghost function Reached(facts: set<Input>, c: string, g: nat): Status {
    if Moves(facts, c, g, Running) then Running
    else if Moves(facts, c, g, Status.Accepted) then Status.Accepted
    else Submitted
  }

  /** An entry says exactly what the facts say, and nothing of their order. */
  ghost predicate Says(facts: set<Input>, e: Entry, conflict: bool, c: string) {
    && (e.terminal <==> Ended(facts, c, e.generation))
    && (e.terminal ==> Ends(facts, c, e.generation, e.status))
    && (!e.terminal ==> e.status == Reached(facts, c, e.generation))
    && (conflict <==> Disputed(facts, c, e.generation))
  }

  ghost predicate Matches(facts: set<Input>, p: Projection, c: string) {
    c in p.entries ==> Says(facts, p.entries[c], c in p.conflicts, c)
  }

  ghost predicate Tracks(k: Content, p0: Projection, facts: set<Input>, p: Projection) {
    && p.entries.Keys == p0.entries.Keys && p.conflicts <= p.entries.Keys
    && (forall c :: c in p.entries ==> p.entries[c].generation == p0.entries[c].generation)
    && (forall c {:trigger Matches(facts, p, c)} :: Matches(facts, p, c))
    && (forall id :: id in p.seenEvents ==> Progressing(k.event(id)) in facts)
    && (forall id :: id in p.seenReceipts ==> Receiving(k.receipt(id)) in facts)
  }

  // ---- one more fact --------------------------------------------------------------

  lemma EndsGrows(facts: set<Input>, i: Input, c: string, g: nat, st: Status)
    ensures Ends(facts + {i}, c, g, st) <==> Ends(facts, c, g, st) || EndsIt(i, c, g, st)
  {
    if x :| x in facts && EndsIt(x, c, g, st) {
      assert x in facts + {i};
    }
    assert i in facts + {i};
  }

  lemma MovesGrows(facts: set<Input>, i: Input, c: string, g: nat, st: Status)
    ensures Moves(facts + {i}, c, g, st) <==> Moves(facts, c, g, st) || MovesIt(i, c, g, st)
  {
    if x :| x in facts && MovesIt(x, c, g, st) {
      assert x in facts + {i};
    }
    assert i in facts + {i};
  }

  /** A fact that is not a terminal receipt of this command and generation leaves its ending alone. */
  lemma EndingSame(facts: set<Input>, i: Input, c: string, g: nat)
    requires !(ReceiptFor(i, c, g) && Settles(i.receipt))
    ensures Ended(facts + {i}, c, g) <==> Ended(facts, c, g)
    ensures Disputed(facts + {i}, c, g) <==> Disputed(facts, c, g)
    ensures forall st :: Ends(facts + {i}, c, g, st) <==> Ends(facts, c, g, st)
  {
    forall st ensures Ends(facts + {i}, c, g, st) <==> Ends(facts, c, g, st) {
      EndsGrows(facts, i, c, g, st);
      if i.Receiving? {
        StatusReports(i.receipt);
      }
    }
  }

  lemma ReachedSame(facts: set<Input>, i: Input, c: string, g: nat)
    requires forall st :: !MovesIt(i, c, g, st)
    ensures Reached(facts + {i}, c, g) == Reached(facts, c, g)
  {
    MovesGrows(facts, i, c, g, Running);
    MovesGrows(facts, i, c, g, Status.Accepted);
  }

  /** Progress, by event or by receipt: the entry moves to the furthest phase known. */
  lemma ProgressSays(facts: set<Input>, i: Input, e: Entry, conflict: bool, c: string, next: Option<Status>)
    requires Says(facts, e, conflict, c)
    requires
      || (EventFor(i, c, e.generation) && next == ProgressStatus(i.event.kind))
      || (ReceiptFor(i, c, e.generation) && !Settles(i.receipt) && next == Some(Status.Accepted))
    ensures Says(facts + {i}, Advance(e, next), conflict, c)
  {
    EndingSame(facts, i, c, e.generation);
    MovesGrows(facts, i, c, e.generation, Running);
    MovesGrows(facts, i, c, e.generation, Status.Accepted);
  }

  /** A terminal receipt: it ends the command, agrees with its end, or disputes it. */
  lemma ReceiptSays(facts: set<Input>, r: Receipt, e: Entry, conflict: bool, c: string)
    requires Says(facts, e, conflict, c) && r.causationId == c && r.generation == e.generation && Settles(r)
    ensures
      var e' := if e.terminal then e else Settle(e, r);
      Says(facts + {Receiving(r)}, e', conflict || (e.terminal && e.status != StatusOf(r)), c)
  {
    var facts', g, st := facts + {Receiving(r)}, e.generation, StatusOf(r);
    StatusReports(r);
    forall x ensures Ends(facts', c, g, x) <==> Ends(facts, c, g, x) || x == st {
      EndsGrows(facts, Receiving(r), c, g, x);
    }
    assert Ends(facts', c, g, st);
    if e.terminal {
      assert Ends(facts', c, g, e.status);
      if Disputed(facts', c, g) && e.status == st {
        var x, y :| x != y && Ends(facts', c, g, x) && Ends(facts', c, g, y);
        assert Ends(facts, c, g, x) && Ends(facts, c, g, y);
      }
    } else {
      assert forall x :: !Ends(facts, c, g, x);
    }
  }

  /** A fact about another command or generation says nothing about this one. */
  lemma ElsewhereSays(facts: set<Input>, i: Input, e: Entry, conflict: bool, c: string)
    requires Says(facts, e, conflict, c)
    requires !EventFor(i, c, e.generation) && !ReceiptFor(i, c, e.generation)
    ensures Says(facts + {i}, e, conflict, c)
  {
    EndingSame(facts, i, c, e.generation);
    ReachedSame(facts, i, c, e.generation);
  }

  lemma StepMatches(k: Content, p0: Projection, facts: set<Input>, p: Projection, i: Input, c: string)
    requires Tracks(k, p0, facts, p) && !i.Submission? && Genuine(k, i)
    ensures Matches(facts + {i}, Step(p, i).0, c)
  {
    assert Matches(facts, p, c);
    if c in p.entries {
      var e, conflict := p.entries[c], c in p.conflicts;
      if i in facts {
        assert facts + {i} == facts;
      }
      if EventFor(i, c, e.generation) {
        ProgressSays(facts, i, e, conflict, c, ProgressStatus(i.event.kind));
      } else if ReceiptFor(i, c, e.generation) {
        if Settles(i.receipt) {
          ReceiptSays(facts, i.receipt, e, conflict, c);
        } else {
          ProgressSays(facts, i, e, conflict, c, Some(Status.Accepted));
        }
      } else {
        ElsewhereSays(facts, i, e, conflict, c);
      }
    }
  }

  lemma StepTracks(k: Content, p0: Projection, facts: set<Input>, p: Projection, i: Input)
    requires Tracks(k, p0, facts, p) && !i.Submission? && Genuine(k, i)
    ensures Tracks(k, p0, facts + {i}, Step(p, i).0)
  {
    forall c ensures Matches(facts + {i}, Step(p, i).0, c) {
      StepMatches(k, p0, facts, p, i, c);
    }
  }

  // ---- runs -----------------------------------------------------------------------

  /** Submitted and nothing more. */
  ghost predicate JustSubmitted(p: Projection) {
    && p.seenEvents == {} && p.seenReceipts == {} && p.conflicts == {}
    && forall c :: c in p.entries ==> p.entries[c].status.Submitted? && !p.entries[c].terminal
  }

  lemma {:induction false} SubmitsOnly(submits: seq<Input>)
    requires forall j :: 0 <= j < |submits| ==> submits[j].Submission?
    ensures JustSubmitted(Run(EMPTY, submits))
    decreases |submits|
  {
    if submits != [] {
      SubmitsOnly(submits[..|submits| - 1]);
    }
  }

  ghost predicate Traffic(k: Content, inputs: seq<Input>) {
    forall j :: 0 <= j < |inputs| ==> !inputs[j].Submission? && Genuine(k, inputs[j])
  }

  lemma {:induction false} RunTracks(k: Content, p0: Projection, inputs: seq<Input>)
    requires JustSubmitted(p0) && Traffic(k, inputs)
    ensures Tracks(k, p0, Elems(inputs), Run(p0, inputs))
    decreases |inputs|
  {
    if inputs == [] {
      assert Elems(inputs) == {};
      forall c ensures Matches({}, p0, c) {
      }
    } else {
      var init, last := inputs[..|inputs| - 1], inputs[|inputs| - 1];
      RunTracks(k, p0, init);
      StepTracks(k, p0, Elems(init), Run(p0, init), last);
      assert inputs == init + [last];
      assert Elems(inputs) == Elems(init) + {last};
    }
  }

  /**
   What any order, with any duplication, of the same facts decides about a command that was first
   submitted at generation `g`: its status, its conflict and what a call on it is told.
   */
  lemma FactsDecide(k: Content, submits: seq<Input>, inputs: seq<Input>, c: string, j: nat)
    requires forall i :: 0 <= i < |submits| ==> submits[i].Submission?
    requires Traffic(k, inputs) && FirstSubmit(submits, c, j)
    ensures
      var g := submits[j].submit.generation;
      var p := Run(Run(EMPTY, submits), inputs);
      var facts := Elems(inputs);
      && c in p.entries && p.entries[c].generation == g
      && (c in p.conflicts <==> Disputed(facts, c, g))
      && (p.entries[c].terminal <==> Ended(facts, c, g))
      && (if p.entries[c].terminal then Ends(facts, c, g, p.entries[c].status)
          else p.entries[c].status == Reached(facts, c, g))
      && (PollCall(p, c) == Conflict <==> Disputed(facts, c, g))
      && (PollCall(p, c) == Resolved(p.entries[c]) <==> Ended(facts, c, g) && !Disputed(facts, c, g))
      && (PollCall(p, c) == Pending <==> !Ended(facts, c, g))
  {
    SubmitsOnly(submits);
    EntryOfFirstSubmit(submits, c, j);
    RunTracks(k, Run(EMPTY, submits), inputs);
    assert Matches(Elems(inputs), Run(Run(EMPTY, submits), inputs), c);
  }

  /** Convergence: the same facts in any two orders, with duplicates, tell the same story. */
  lemma ProjectionConverges(k: Content, submits: seq<Input>, a: seq<Input>, b: seq<Input>)
    requires forall j :: 0 <= j < |submits| ==> submits[j].Submission?
    requires Traffic(k, a) && Traffic(k, b) && Elems(a) == Elems(b)
    ensures
      var p := Run(Run(EMPTY, submits), a);
      var q := Run(Run(EMPTY, submits), b);
      && p.entries.Keys == q.entries.Keys && p.conflicts == q.conflicts
      && forall c :: c in p.entries ==>
           && p.entries[c].terminal == q.entries[c].terminal
           && (c !in p.conflicts ==> p.entries[c].status == q.entries[c].status)
  {
    SubmitsOnly(submits);
    RunTracks(k, Run(EMPTY, submits), a);
    RunTracks(k, Run(EMPTY, submits), b);
    var p, q := Run(Run(EMPTY, submits), a), Run(Run(EMPTY, submits), b);
    forall c | c in p.entries
      ensures c in q.entries && (c in p.conflicts <==> c in q.conflicts)
      ensures p.entries[c].terminal == q.entries[c].terminal
      ensures c !in p.conflicts ==> p.entries[c].status == q.entries[c].status
    {
      assert Matches(Elems(a), p, c) && Matches(Elems(a), q, c);
    }
  }
}

/** A replica rebuilt from an image keeps up with its source, whatever is redelivered to it. */
module CommandResync {
  import opened Prelude
  import opened Command
  import opened CommandContent
  import opened CommandPermanence

  // ---- what an image does ----------------------------------------------------------

  ghost predicate Keyed(p: Projection) {
    forall c :: c in p.entries ==> p.entries[c].commandId == c
  }

  ghost predicate DistinctIds(commands: seq<Entry>) {
    forall i, j :: 0 <= i < j < |commands| ==> commands[i].commandId != commands[j].commandId
  }

  /** `q` is `p` with the listed entries put over its own and their last events and receipts marked as seen. */
  ghost predicate Overwritten(p: Projection, q: Projection, commands: seq<Entry>) {
    && (forall c :: c in q.entries <==> c in p.entries || exists e :: e in commands && e.commandId == c)
    && (forall e :: e in commands ==> e.commandId in q.entries && q.entries[e.commandId] == e)
    && (forall c :: c in p.entries && (forall e :: e in commands ==> e.commandId != c) ==>
          c in q.entries && q.entries[c] == p.entries[c])
    && (forall id ::
          id in q.seenEvents <==> id in p.seenEvents || exists e :: e in commands && e.lastEventId == Some(id))
    && (forall id ::
          id in q.seenReceipts <==> id in p.seenReceipts || exists e :: e in commands && e.receiptId == Some(id))
    && q.seenCancels == p.seenCancels && q.conflicts == p.conflicts && q.generation == p.generation
  }

  lemma OneMoreEntry(p: Projection, q: Projection, init: seq<Entry>, last: Entry)
    requires Overwritten(p, q, init) && forall e :: e in init ==> e.commandId != last.commandId
    ensures Overwritten(p, PutEntry(q, last), init + [last])
  {
    var all, q' := init + [last], PutEntry(q, last);
    assert forall e :: e in all <==> e in init || e == last;
    assert last in all;
  }

  lemma {:induction false} PutAllOverwrites(p: Projection, commands: seq<Entry>)
    requires DistinctIds(commands)
    ensures Overwritten(p, PutAll(p, commands), commands)
    decreases |commands|
  {
    if commands != [] {
      var n := |commands| - 1;
      var init, last := commands[..n], commands[n];
      PutAllOverwrites(p, init);
      forall e | e in init ensures e.commandId != last.commandId {
        var i :| 0 <= i < n && init[i] == e;
        assert commands[i].commandId != commands[n].commandId;
      }
      OneMoreEntry(p, PutAll(p, init), init, last);
      assert commands == init + [last];
    }
  }

  /**
   An image, applied to any projection: every listed command has the image's entry, every other one
   keeps its own, the generation is the larger of the two, exactly the listed last events and
   receipts become seen, and cancels and conflicts stay.
   */
  lemma ImageOverwrites(p: Projection, image: Image)
    requires DistinctIds(image.commands)
    ensures
      var q := ImageTo(p, image);
      && Overwritten(p.(generation := q.generation), q, image.commands)
      && q.generation >= p.generation && q.generation >= image.generation
      && (q.generation == p.generation || q.generation == image.generation)
  {
    PutAllOverwrites(p.(generation := Max(p.generation, image.generation)), image.commands);
  }

  /** Knows nothing that `s` does not know. */
  ghost predicate Behind(p: Projection, s: Projection) {
    && p.generation <= s.generation && p.entries.Keys <= s.entries.Keys && p.conflicts <= s.conflicts
    && p.seenEvents <= s.seenEvents && p.seenReceipts <= s.seenReceipts
  }

  /** The image of a projection, applied to one that is behind it, restores its generation and every entry. */
  lemma ImageRoundTrips(p: Projection, s: Projection, image: Image)
    requires IsImage(s, image) && Behind(p, s)
    ensures ImageTo(p, image).generation == s.generation && ImageTo(p, image).entries == s.entries
  {
    var q := ImageTo(p, image);
    ImageOverwrites(p, image);
    forall c ensures c in q.entries <==> c in s.entries {
      assert c in s.entries <==> c in Ids(image.commands);
    }
    forall c | c in s.entries ensures q.entries[c] == s.entries[c] {
      assert c in Ids(image.commands);
      var e :| e in image.commands && e.commandId == c;
    }
  }

  /** Traffic only adds to what a projection knows. */
  lemma StepAdds(p: Projection, i: Input)
    ensures Behind(p, Step(p, i).0)
  {
  }

  /** A projection that has run a prefix of a history is behind one that has run all of it. */
  lemma {:induction false} PrefixIsBehind(history: seq<Input>, m: nat)
    requires m <= |history|
    ensures Behind(Run(EMPTY, history[..m]), Run(EMPTY, history))
    decreases |history|
  {
    if m == |history| {
      assert history[..m] == history;
    } else {
      var n := |history| - 1;
      assert history[..n][..m] == history[..m];
      PrefixIsBehind(history[..n], m);
      StepAdds(Run(EMPTY, history[..n]), history[n]);
    }
  }

  // ---- what the seen sets stand for -------------------------------------------------

  /** An event of this command that could no longer change it. */
  ghost predicate EventAbsorbed(p: Projection, v: Event) {
    && v.commandId in p.entries
    && var e := p.entries[v.commandId];
       && e.generation == v.generation
       && (e.terminal || ProgressStatus(v.kind).None? || PhaseRank(ProgressStatus(v.kind).value) <= PhaseRank(e.status))
  }

  ghost predicate ReceiptAbsorbed(p: Projection, r: Receipt) {
    && r.causationId in p.entries
    && var e := p.entries[r.causationId];
       && e.generation == r.generation
       && if Settles(r) then e.terminal && e.status == StatusOf(r) else e.terminal || PhaseRank(e.status) >= 1
  }

  ghost predicate Absorbs(k: Content, p: Projection) {
    && (forall id {:trigger k.event(id)} :: id in p.seenEvents ==> EventAbsorbed(p, k.event(id)))
    && (forall id {:trigger k.receipt(id)} :: id in p.seenReceipts ==> ReceiptAbsorbed(p, k.receipt(id)))
  }

  ghost predicate Recalled(p: Projection, e: Entry) {
    && (e.lastEventId.Some? ==> e.lastEventId.value in p.seenEvents)
    && (e.receiptId.Some? ==> e.receiptId.value in p.seenReceipts)
  }

  ghost predicate Remembers(p: Projection) {
    forall c :: c in p.entries ==> Recalled(p, p.entries[c])
  }

  ghost predicate SourceInv(k: Content, p: Projection) {
    Sound(p) && Keyed(p) && Absorbs(k, p) && Remembers(p)
  }

  /** What has been absorbed stays absorbed as entries move onward. */
  lemma AbsorbedOnward(p: Projection, q: Projection, v: Event, r: Receipt)
    requires forall c :: c in p.entries ==> c in q.entries && Onward(p.entries[c], q.entries[c])
    ensures EventAbsorbed(p, v) ==> EventAbsorbed(q, v)
    ensures ReceiptAbsorbed(p, r) ==> ReceiptAbsorbed(q, r)
  {
  }

  /** The one fact a step may newly mark as seen is absorbed by that step. */
  lemma NewlyAbsorbed(k: Content, p: Projection, i: Input)
    requires Sound(p) && Genuine(k, i)
    ensures
      var q := Step(p, i).0;
      && (forall id :: id in q.seenEvents && id !in p.seenEvents ==> EventAbsorbed(q, k.event(id)))
      && (forall id :: id in q.seenReceipts && id !in p.seenReceipts ==> ReceiptAbsorbed(q, k.receipt(id)))
  {
  }

  lemma StepAbsorbs(k: Content, p: Projection, i: Input)
    requires Sound(p) && Absorbs(k, p) && Genuine(k, i)
    ensures Absorbs(k, Step(p, i).0)
  {
    var q := Step(p, i).0;
    forall c | c in p.entries ensures c in q.entries && Onward(p.entries[c], q.entries[c]) {
      StepOnward(p, i, c);
    }
    NewlyAbsorbed(k, p, i);
    forall id ensures id in q.seenEvents ==> EventAbsorbed(q, k.event(id)) {
      AbsorbedOnward(p, q, k.event(id), k.receipt(id));
    }
    forall id ensures id in q.seenReceipts ==> ReceiptAbsorbed(q, k.receipt(id)) {
      AbsorbedOnward(p, q, k.event(id), k.receipt(id));
    }
  }

  lemma StepRemembers(p: Projection, i: Input)
    requires Keyed(p) && Remembers(p)
    ensures Keyed(Step(p, i).0) && Remembers(Step(p, i).0)
  {
    var q := Step(p, i).0;
    forall c | c in q.entries ensures Recalled(q, q.entries[c]) {
      assert c in p.entries ==> Recalled(p, p.entries[c]);
    }
  }

  lemma {:induction false} RunKeepsSource(k: Content, p: Projection, inputs: seq<Input>)
    requires SourceInv(k, p) && forall j :: 0 <= j < |inputs| ==> Genuine(k, inputs[j])
    ensures SourceInv(k, Run(p, inputs))
    decreases |inputs|
  {
    if inputs != [] {
      var init, last := inputs[..|inputs| - 1], inputs[|inputs| - 1];
      RunKeepsSource(k, p, init);
      StepSound(Run(p, init), last);
      StepAbsorbs(k, Run(p, init), last);
      StepRemembers(Run(p, init), last);
    }
  }

  // ---- source and replica ------------------------------------------------------------

  /** Equal in everything but the last event id, which is a diagnostic. */
  ghost predicate SameEntry(e: Entry, f: Entry) {
    f == e.(lastEventId := f.lastEventId)
  }

  /** The replica knows no more than its source, and shows the same. */
  ghost predicate InSync(s: Projection, r: Projection) {
    && s.generation == r.generation && s.entries.Keys == r.entries.Keys
    && (forall c :: c in s.entries ==> SameEntry(s.entries[c], r.entries[c]))
    && r.seenEvents <= s.seenEvents && r.seenReceipts <= s.seenReceipts
  }

  /** An absorbed event, delivered to the replica again, moves nothing but the last event id. */
  lemma AbsorbedAdvance(e: Entry, v: Event)
    requires SoundEntry(e)
    requires e.terminal || ProgressStatus(v.kind).None? ||
             PhaseRank(ProgressStatus(v.kind).value) <= PhaseRank(e.status)
    ensures Advance(e, ProgressStatus(v.kind)) == e
  {
  }

  lemma EventInSync(k: Content, s: Projection, r: Projection, v: Event)
    requires Sound(s) && Absorbs(k, s) && InSync(s, r) && v == k.event(v.eventId)
    ensures InSync(EventTo(s, v).0, EventTo(r, v).0)
  {
    if v.eventId in s.seenEvents && v.eventId !in r.seenEvents {
      assert EventAbsorbed(s, k.event(v.eventId));
      var e := r.entries[v.commandId];
      assert SoundEntry(s.entries[v.commandId]) && SameEntry(s.entries[v.commandId], e);
      AbsorbedAdvance(e.(lastEventId := Some(v.eventId)), v);
    }
  }

  /** The conflicts raised since the resync are the same on both sides. */
  lemma ReceiptInSync(k: Content, s: Projection, r: Projection, t: Receipt, before: set<string>)
    requires Sound(s) && Absorbs(k, s) && InSync(s, r) && t == k.receipt(t.receiptId)
    requires s.conflicts == before + r.conflicts
    ensures InSync(ReceiptTo(s, t).0, ReceiptTo(r, t).0)
    ensures ReceiptTo(s, t).0.conflicts == before + ReceiptTo(r, t).0.conflicts
  {
    if t.receiptId in s.seenReceipts && t.receiptId !in r.seenReceipts {
      assert ReceiptAbsorbed(s, k.receipt(t.receiptId));
      assert SoundEntry(s.entries[t.causationId]) && SameEntry(s.entries[t.causationId], r.entries[t.causationId]);
    } else if t.causationId in s.entries {
      assert SameEntry(s.entries[t.causationId], r.entries[t.causationId]);
    }
  }

  lemma StepInSync(k: Content, s: Projection, r: Projection, i: Input, before: set<string>)
    requires Sound(s) && Absorbs(k, s) && InSync(s, r) && Genuine(k, i) && s.conflicts == before + r.conflicts
    ensures InSync(Step(s, i).0, Step(r, i).0) && Step(s, i).0.conflicts == before + Step(r, i).0.conflicts
  {
    match i
    case Progressing(v) => EventInSync(k, s, r, v);
    case Receiving(t) => ReceiptInSync(k, s, r, t, before);
    case Submission(_) =>
    case Cancelling(_) =>
  }

  lemma {:induction false} RunInSync(k: Content, s: Projection, r: Projection, traffic: seq<Input>, before: set<string>)
    requires SourceInv(k, s) && InSync(s, r) && s.conflicts == before + r.conflicts
    requires forall j :: 0 <= j < |traffic| ==> Genuine(k, traffic[j])
    ensures InSync(Run(s, traffic), Run(r, traffic)) && Run(s, traffic).conflicts == before + Run(r, traffic).conflicts
    decreases |traffic|
  {
    if traffic != [] {
      var init := traffic[..|traffic| - 1];
      RunInSync(k, s, r, init, before);
      RunKeepsSource(k, s, init);
      StepInSync(k, Run(s, init), Run(r, init), traffic[|traffic| - 1], before);
    }
  }

  /** Whatever an image marks as seen, its source has seen. */
  lemma ImageSeen(p: Projection, s: Projection, image: Image)
    requires Behind(p, s) && Remembers(s) && IsImage(s, image)
    ensures ImageTo(p, image).seenEvents <= s.seenEvents && ImageTo(p, image).seenReceipts <= s.seenReceipts
  {
    ImageOverwrites(p, image);
    forall e | e in image.commands ensures Recalled(s, e) {
      assert e.commandId in s.entries && s.entries[e.commandId] == e;
    }
  }

  lemma ImageRemembers(p: Projection, s: Projection, image: Image)
    requires Behind(p, s) && IsImage(s, image)
    ensures Remembers(ImageTo(p, image))
  {
    var r := ImageTo(p, image);
    ImageOverwrites(p, image);
    ImageRoundTrips(p, s, image);
    forall c | c in r.entries ensures Recalled(r, r.entries[c]) {
      assert c in Ids(image.commands);
      var e :| e in image.commands && e.commandId == c;
      assert r.entries[c] == e;
    }
  }

  /** A replica that was behind its source is in sync once it has applied an image, and can be imaged itself. */
  lemma ReplicaStarts(k: Content, p: Projection, s: Projection, image: Image)
    requires SourceInv(k, s) && Behind(p, s) && IsImage(s, image)
    ensures InSync(s, ImageTo(p, image)) && SourceInv(k, ImageTo(p, image))
    ensures ImageTo(p, image).conflicts == p.conflicts
  {
    var r := ImageTo(p, image);
    ImageOverwrites(p, image);
    ImageRoundTrips(p, s, image);
    ImageSeen(p, s, image);
    ImageRemembers(p, s, image);
    forall id ensures id in r.seenEvents ==> EventAbsorbed(r, k.event(id)) {
      assert id in r.seenEvents ==> EventAbsorbed(s, k.event(id));
    }
    forall id ensures id in r.seenReceipts ==> ReceiptAbsorbed(r, k.receipt(id)) {
      assert id in r.seenReceipts ==> ReceiptAbsorbed(s, k.receipt(id));
    }
  }

  /**
   Resync: a client has run any prefix of a source's history, none of it included, and loses touch.
   It applies an image of the source, and any further traffic reaches both, redeliveries included.
   They agree on generation and, for every command, on status, terminal flag, reason, receipt id
   and generation; the source's conflicts are those it had at the resync and those the client has.
   */
  lemma ResyncBisimulation(k: Content, history: seq<Input>, m: nat, image: Image, traffic: seq<Input>)
    requires forall j :: 0 <= j < |history| ==> Genuine(k, history[j])
    requires forall j :: 0 <= j < |traffic| ==> Genuine(k, traffic[j])
    requires m <= |history| && IsImage(Run(EMPTY, history), image)
    ensures
      var s := Run(EMPTY, history + traffic);
      var r := Run(ImageTo(Run(EMPTY, history[..m]), image), traffic);
      && s.generation == r.generation && s.entries.Keys == r.entries.Keys
      && (forall c :: c in s.entries ==>
            && s.entries[c].status == r.entries[c].status && s.entries[c].terminal == r.entries[c].terminal
            && s.entries[c].reason == r.entries[c].reason && s.entries[c].receiptId == r.entries[c].receiptId
            && s.entries[c].generation == r.entries[c].generation)
      && s.conflicts == Run(EMPTY, history).conflicts + r.conflicts
  {
    var s0, p0 := Run(EMPTY, history), Run(EMPTY, history[..m]);
    var r0 := ImageTo(p0, image);
    RunKeepsSource(k, EMPTY, history);
    PrefixIsBehind(history, m);
    ReplicaStarts(k, p0, s0, image);
    RunInSync(k, s0, r0, traffic, s0.conflicts);
    RunSplits(EMPTY, history, traffic);
    var s, r := Run(s0, traffic), Run(r0, traffic);
    forall c | c in s.entries ensures SameEntry(s.entries[c], r.entries[c]) {
    }
  }
}
