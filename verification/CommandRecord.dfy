/** What a projection has recorded: the first submission of every command, and every id it has taken in. */
module CommandRecord {
  import opened Prelude
  import opened Command
  import opened CommandContent

  // ---- submissions ------------------------------------------------------------------

  predicate Submits(i: Input, c: string) {
    i.Submission? && i.submit.commandId == c
  }

  /** The input at `j` is the first to submit command `c`. */
  ghost predicate FirstSubmit(inputs: seq<Input>, c: string, j: nat) {
    j < |inputs| && Submits(inputs[j], c) && forall i :: 0 <= i < j ==> !Submits(inputs[i], c)
  }

  ghost predicate WasSubmitted(inputs: seq<Input>, c: string) {
    exists j :: 0 <= j < |inputs| && Submits(inputs[j], c)
  }

  /** A command is known exactly when it has been submitted. */
  lemma {:induction false} KnownIffSubmitted(inputs: seq<Input>, c: string)
    ensures c in Run(EMPTY, inputs).entries <==> WasSubmitted(inputs, c)
    decreases |inputs|
  {
    if inputs != [] {
      var n := |inputs| - 1;
      KnownIffSubmitted(inputs[..n], c);
      assert forall j :: 0 <= j < n ==> inputs[..n][j] == inputs[j];
    }
  }

  /** An entry carries the generation of the first submission, whatever came in between or since. */
  lemma {:induction false} EntryOfFirstSubmit(inputs: seq<Input>, c: string, j: nat)
    requires FirstSubmit(inputs, c, j)
    ensures c in Run(EMPTY, inputs).entries
    ensures Run(EMPTY, inputs).entries[c].generation == inputs[j].submit.generation
    ensures Run(EMPTY, inputs).entries[c].commandId == c
    decreases |inputs|
  {
    var n := |inputs| - 1;
    if j < n {
      assert FirstSubmit(inputs[..n], c, j);
      EntryOfFirstSubmit(inputs[..n], c, j);
    } else {
      KnownIffSubmitted(inputs[..n], c);
    }
  }

  /** The projection's generation is the largest of its commands', or none. */
  lemma {:induction false} GenerationIsLargest(inputs: seq<Input>)
    ensures
      var p := Run(EMPTY, inputs);
      && (forall c :: c in p.entries ==> p.entries[c].generation <= p.generation)
      && (p.generation == 0 || exists c :: c in p.entries && p.entries[c].generation == p.generation)
    decreases |inputs|
  {
    if inputs != [] {
      var n := |inputs| - 1;
      var p, q := Run(EMPTY, inputs[..n]), Run(EMPTY, inputs);
      GenerationIsLargest(inputs[..n]);
      forall c | c in p.entries ensures c in q.entries && q.entries[c].generation == p.entries[c].generation {
      }
      if inputs[n].Submission? && q.generation != p.generation {
        assert q.entries[inputs[n].submit.commandId].generation == q.generation;
      }
    }
  }

  // ---- verdicts -------------------------------------------------------------------------

  /** The same kind of input with the same id. */
  predicate SameId(a: Input, b: Input) {
    match a
    case Submission(s) => b.Submission? && b.submit.commandId == s.commandId
    case Progressing(v) => b.Progressing? && b.event.eventId == v.eventId
    case Cancelling(c) => b.Cancelling? && b.cancel.causationId == c.causationId
    case Receiving(r) => b.Receiving? && b.receipt.receiptId == r.receiptId
  }

  /** An input with the id of `i` has been recorded. */
  ghost predicate RecordedBefore(inputs: seq<Input>, i: Input) {
    exists k :: 0 <= k < |inputs| && SameId(i, inputs[k]) && Step(Run(EMPTY, inputs[..k]), inputs[k]).1 == Recorded
  }

  predicate Knows(p: Projection, i: Input) {
    match i
    case Submission(s) => s.commandId in p.entries
    case Progressing(v) => v.eventId in p.seenEvents
    case Cancelling(c) => c.causationId in p.seenCancels
    case Receiving(r) => r.receiptId in p.seenReceipts
  }

  lemma StepKnows(p: Projection, i: Input, x: Input)
    ensures Knows(Step(p, i).0, x) <==> Knows(p, x) || (SameId(x, i) && Step(p, i).1 == Recorded)
  {
  }

  lemma RecordedStep(inputs: seq<Input>, i: Input)
    requires inputs != []
    ensures
      var n := |inputs| - 1;
      RecordedBefore(inputs, i) <==>
      RecordedBefore(inputs[..n], i) || (SameId(i, inputs[n]) && Step(Run(EMPTY, inputs[..n]), inputs[n]).1 == Recorded)
  {
    var n := |inputs| - 1;
    forall k | 0 <= k < n ensures inputs[..n][..k] == inputs[..k] && inputs[..n][k] == inputs[k] {
    }
    if RecordedBefore(inputs[..n], i) {
      var k :| 0 <= k < n && SameId(i, inputs[..n][k])
               && Step(Run(EMPTY, inputs[..n][..k]), inputs[..n][k]).1 == Recorded;
      assert SameId(i, inputs[k]) && Step(Run(EMPTY, inputs[..k]), inputs[k]).1 == Recorded;
    }
    if RecordedBefore(inputs, i) {
      var k :| 0 <= k < |inputs| && SameId(i, inputs[k]) && Step(Run(EMPTY, inputs[..k]), inputs[k]).1 == Recorded;
      if k < n {
        assert SameId(i, inputs[..n][k]) && Step(Run(EMPTY, inputs[..n][..k]), inputs[..n][k]).1 == Recorded;
      }
    }
  }

  lemma {:induction false} KnownIffRecorded(inputs: seq<Input>, i: Input)
    ensures Knows(Run(EMPTY, inputs), i) <==> RecordedBefore(inputs, i)
    decreases |inputs|
  {
    if inputs != [] {
      var n := |inputs| - 1;
      KnownIffRecorded(inputs[..n], i);
      StepKnows(Run(EMPTY, inputs[..n]), inputs[n], i);
      RecordedStep(inputs, i);
    }
  }

  function CommandOf(i: Input): string {
    match i
    case Submission(s) => s.commandId
    case Progressing(v) => v.commandId
    case Cancelling(c) => c.commandId
    case Receiving(r) => r.causationId
  }

  function GenerationOf(i: Input): nat {
    match i
    case Submission(s) => s.generation
    case Progressing(v) => v.generation
    case Cancelling(c) => c.generation
    case Receiving(r) => r.generation
  }

  /**
   What a projection answers, over every run: a duplicate is an input whose id it has recorded; an
   unknown one speaks of a command nobody submitted; a stale one of another generation than that
   of the first submission, and it names both; anything else is recorded, unless it is a receipt
   that reports another terminal status than the command has.
   */
  lemma VerdictsTell(inputs: seq<Input>, i: Input)
    ensures
      var p, v, c := Run(EMPTY, inputs), Step(Run(EMPTY, inputs), i).1, CommandOf(i);
      && (v == Duplicate <==> RecordedBefore(inputs, i))
      && (v == Unknown <==> !RecordedBefore(inputs, i) && !i.Submission? && !WasSubmitted(inputs, c))
      && (v.StaleGeneration? <==>
            && !RecordedBefore(inputs, i) && !i.Submission? && WasSubmitted(inputs, c)
            && c in p.entries && GenerationOf(i) != p.entries[c].generation)
      && (v.StaleGeneration? ==> v == StaleGeneration(p.entries[c].generation, GenerationOf(i)))
      && (v.TerminalConflict? <==>
            && i.Receiving? && !RecordedBefore(inputs, i)
            && c in p.entries && p.entries[c].generation == GenerationOf(i) && p.entries[c].terminal
            && exists st :: st != p.entries[c].status && Reports(i.receipt, st))
      && (v.TerminalConflict? ==>
            v.commandId == c && v.existing == p.entries[c].status && Reports(i.receipt, v.incoming))
  {
    KnownIffRecorded(inputs, i);
    KnownIffSubmitted(inputs, CommandOf(i));
    if i.Receiving? {
      StatusReports(i.receipt);
      assert Reports(i.receipt, StatusOf(i.receipt)) <==> Settles(i.receipt);
    }
  }

  // ---- the last event ---------------------------------------------------------------------

  ghost predicate EventTaken(inputs: seq<Input>, k: nat, c: string)
    requires k < |inputs|
  {
    inputs[k].Progressing? && inputs[k].event.commandId == c && Step(Run(EMPTY, inputs[..k]), inputs[k]).1 == Recorded
  }

  /** An entry names the last event recorded for its command. */
  lemma {:induction false} LastEventIsLast(inputs: seq<Input>, c: string) returns (k: int)
    requires c in Run(EMPTY, inputs).entries
    ensures -1 <= k < |inputs| && forall j :: k < j < |inputs| ==> !EventTaken(inputs, j, c)
    ensures k >= 0 ==> EventTaken(inputs, k, c)
    ensures Run(EMPTY, inputs).entries[c].lastEventId == if k >= 0 then Some(inputs[k].event.eventId) else None
    decreases |inputs|
  {
    var n := |inputs| - 1;
    var p := Run(EMPTY, inputs[..n]);
    forall j | 0 <= j < n ensures EventTaken(inputs[..n], j, c) == EventTaken(inputs, j, c) {
      assert inputs[..n][..j] == inputs[..j];
    }
    if EventTaken(inputs, n, c) {
      k := n;
    } else if c in p.entries {
      k := LastEventIsLast(inputs[..n], c);
    } else {
      k := -1;
      forall j | 0 <= j < n ensures !EventTaken(inputs, j, c) {
        KnownIffSubmitted(inputs[..j], c);
        KnownIffSubmitted(inputs[..n], c);
        assert forall i :: 0 <= i < j ==> inputs[..j][i] == inputs[..n][i];
      }
    }
  }
}
