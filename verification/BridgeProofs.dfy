/** What a peer receives depends on nothing it may not see, and comes in an unbroken chain. */
module BridgeProofs {
  import opened Prelude
  import opened Bridge

  // ---- filters ---------------------------------------------------------------------

  lemma {:induction false} FilterMember<T>(s: seq<T>, f: T -> bool, x: T)
    ensures x in Filter(s, f) <==> x in s && f(x)
    decreases |s|
  {
    if s != [] {
      assert s == s[..|s| - 1] + [s[|s| - 1]];
      FilterMember(s[..|s| - 1], f, x);
    }
  }

  lemma {:induction false} FilterAppend<T>(s: seq<T>, t: seq<T>, f: T -> bool)
    ensures Filter(s + t, f) == Filter(s, f) + Filter(t, f)
    decreases |t|
  {
    if t == [] {
      assert s + t == s;
    } else {
      var st := s + t;
      assert st[..|st| - 1] == s + t[..|t| - 1];
      FilterAppend(s, t[..|t| - 1], f);
    }
  }

  lemma FilterOne<T>(x: T, f: T -> bool)
    ensures Filter([x], f) == if f(x) then [x] else []
  {
    assert [x][..0] == [];
  }

  /** Filtering by a condition that the first filter already implies part of. */
  lemma {:induction false} FilterTwice<T>(s: seq<T>, f: T -> bool, g: T -> bool, h: T -> bool)
    requires forall x :: h(x) <==> f(x) && g(x)
    ensures Filter(Filter(s, f), g) == Filter(s, h)
    decreases |s|
  {
    if s != [] {
      var init, last := s[..|s| - 1], s[|s| - 1];
      FilterTwice(init, f, g, h);
      if f(last) {
        FilterAppend(Filter(init, f), [last], g);
        FilterOne(last, g);
      } else {
        assert Filter(init, f) + [] == Filter(init, f);
      }
    }
  }

  // ---- the part of the inbound traffic a peer may see ---------------------------------

  function Visible(from: Member, to: Member, op: Op): bool {
    Authorized(from, op) && Readable(to, op)
  }

  /** Unauthorized or unreadable operations deleted from one message. */
  function PurgeMessage(from: Member, to: Member, m: Message): Message {
    match m
    case DeltaMsg(d) => DeltaMsg(d.(ops := Filter(d.ops, op => Visible(from, to, op))))
    case SyncMsg(s) => SyncMsg(ReadableSync(to, s))
    case Control => Control
  }

  function Purge(from: Member, to: Member, msgs: seq<Message>): seq<Message> {
    seq(|msgs|, k requires 0 <= k < |msgs| => PurgeMessage(from, to, msgs[k]))
  }

  /** The operations of one delta. */
  datatype Bundle = Bundle(ops: seq<Op>)

  /** What `to` would be sent of one message: nothing, or one batch of operations. */
  function Batch(from: Member, to: Member, m: Message): seq<Bundle> {
    var ops := ReadableOps(to, AuthorizeInbound(from, m));
    if ops == [] then [] else [Bundle(ops)]
  }

  function Frame(to: Member, m: Message): seq<Sync> {
    if m.SyncMsg? && ReadableSync(to, m.sync).ops != [] then [ReadableSync(to, m.sync)] else []
  }

  function BatchesFrom(from: Member, to: Member, msgs: seq<Message>): seq<Bundle> {
    if msgs == [] then []
    else BatchesFrom(from, to, msgs[..|msgs| - 1]) + Batch(from, to, msgs[|msgs| - 1])
  }

  function FramesFrom(to: Member, msgs: seq<Message>): seq<Sync> {
    if msgs == [] then [] else FramesFrom(to, msgs[..|msgs| - 1]) + Frame(to, msgs[|msgs| - 1])
  }

  /** What member `i` contributes to member `j`: nothing if they are the same. */
  function Share(who: seq<Member>, inbox: seq<seq<Message>>, j: nat, i: nat): seq<Bundle>
    requires i < |who| == |inbox| && j < |who|
  {
    if i == j then [] else BatchesFrom(who[i], who[j], inbox[i])
  }

  function SyncShare(who: seq<Member>, inbox: seq<seq<Message>>, j: nat, i: nat): seq<Sync>
    requires i < |who| == |inbox| && j < |who|
  {
    if i == j then [] else FramesFrom(who[j], inbox[i])
  }

  function Flatten<T>(s: seq<seq<T>>): seq<T> {
    if s == [] then [] else Flatten(s[..|s| - 1]) + s[|s| - 1]
  }

  function Shares(who: seq<Member>, inbox: seq<seq<Message>>, j: nat): seq<seq<Bundle>>
    requires |who| == |inbox| && j < |who|
  {
    seq(|who|, i requires 0 <= i < |who| => Share(who, inbox, j, i))
  }

  function SyncShares(who: seq<Member>, inbox: seq<seq<Message>>, j: nat): seq<seq<Sync>>
    requires |who| == |inbox| && j < |who|
  {
    seq(|who|, i requires 0 <= i < |who| => SyncShare(who, inbox, j, i))
  }

  /** All that a poll has for member `j`, in the order of the sources. */
  function Batches(who: seq<Member>, inbox: seq<seq<Message>>, j: nat): seq<Bundle>
    requires |who| == |inbox| && j < |who|
  {
    Flatten(Shares(who, inbox, j))
  }

  function FramesTo(who: seq<Member>, inbox: seq<seq<Message>>, j: nat): seq<Sync>
    requires |who| == |inbox| && j < |who|
  {
    Flatten(SyncShares(who, inbox, j))
  }

  /** Deleting what `to` may not see leaves what it would be sent. */
  lemma PurgeKeepsBatch(from: Member, to: Member, m: Message)
    ensures Batch(from, to, PurgeMessage(from, to, m)) == Batch(from, to, m)
    ensures Frame(to, PurgeMessage(from, to, m)) == Frame(to, m)
  {
    match m
    case DeltaMsg(d) =>
      var f, g, h := (op: Op) => Authorized(from, op), (op: Op) => Readable(to, op), (op: Op) => Visible(from, to, op);
      var kept := Filter(d.ops, h);
      FilterTwice(d.ops, f, g, h);
      FilterTwice(kept, f, g, h);
      FilterTwice(d.ops, h, h, h);
    case SyncMsg(s) =>
      var f := (op: SyncOp) => CanRead(to.perms, to.peer, op.node);
      FilterTwice(s.ops, f, f, f);
    case Control =>
  }

  lemma PurgeInit(from: Member, to: Member, msgs: seq<Message>)
    requires msgs != []
    ensures
      var n := |msgs| - 1;
      && |Purge(from, to, msgs)| == n + 1
      && Purge(from, to, msgs)[..n] == Purge(from, to, msgs[..n])
      && Purge(from, to, msgs)[n] == PurgeMessage(from, to, msgs[n])
  {
  }

  lemma {:induction false} PurgeKeepsBatches(from: Member, to: Member, msgs: seq<Message>, less: seq<Message>)
    requires less == Purge(from, to, msgs)
    ensures BatchesFrom(from, to, less) == BatchesFrom(from, to, msgs)
    decreases |msgs|
  {
    if msgs != [] {
      var n := |msgs| - 1;
      PurgeInit(from, to, msgs);
      PurgeKeepsBatches(from, to, msgs[..n], less[..n]);
      PurgeKeepsBatch(from, to, msgs[n]);
    }
  }

  lemma {:induction false} PurgeKeepsFrames(from: Member, to: Member, msgs: seq<Message>, less: seq<Message>)
    requires less == Purge(from, to, msgs)
    ensures FramesFrom(to, less) == FramesFrom(to, msgs)
    decreases |msgs|
  {
    if msgs != [] {
      var n := |msgs| - 1;
      PurgeInit(from, to, msgs);
      PurgeKeepsFrames(from, to, msgs[..n], less[..n]);
      PurgeKeepsBatch(from, to, msgs[n]);
    }
  }

  // ---- one poll, seen from one peer ----------------------------------------------------

  /** The deltas of a list of batches, stamped with consecutive epochs. */
  function Stamp(epoch: nat, batches: seq<Bundle>): seq<Message> {
    seq(|batches|, k requires 0 <= k < |batches| => DeltaMsg(Delta(epoch + k, epoch + k + 1, batches[k].ops)))
  }

  function Wrap(frames: seq<Sync>): seq<Message> {
    seq(|frames|, k requires 0 <= k < |frames| => SyncMsg(frames[k]))
  }

  function BatchesOf(a: Member, j: nat, inbound: seq<(nat, seq<Op>)>): seq<Bundle> {
    if inbound == [] then []
    else
      var (src, ops) := inbound[|inbound| - 1];
      var v := ReadableOps(a, ops);
      BatchesOf(a, j, inbound[..|inbound| - 1]) + if src == j || v == [] then [] else [Bundle(v)]
  }

  function FramesOf(a: Member, j: nat, inbound: seq<(nat, Sync)>): seq<Sync> {
    if inbound == [] then []
    else
      var (src, s) := inbound[|inbound| - 1];
      FramesOf(a, j, inbound[..|inbound| - 1]) +
      if src == j || ReadableSync(a, s).ops == [] then [] else [ReadableSync(a, s)]
  }

  lemma StampOne(epoch: nat, batches: seq<Bundle>, b: Bundle)
    ensures Stamp(epoch, batches + [b]) ==
            Stamp(epoch, batches) + [DeltaMsg(Delta(epoch + |batches|, epoch + |batches| + 1, b.ops))]
  {
  }

  lemma {:induction false} OpsReachStamps(a: Attachment, j: nat, inbound: seq<(nat, seq<Op>)>)
    ensures
      var b := BatchesOf(a.who, j, inbound);
      OpsReach(a, j, inbound) == a.(outEpoch := a.outEpoch + |b|, sent := a.sent + Stamp(a.outEpoch, b))
    decreases |inbound|
  {
    if inbound == [] {
      assert a.sent + Stamp(a.outEpoch, []) == a.sent;
    } else {
      var init, ops := inbound[..|inbound| - 1], inbound[|inbound| - 1].1;
      OpsReachStamps(a, j, init);
      var b := BatchesOf(a.who, j, init);
      StampOne(a.outEpoch, b, Bundle(ReadableOps(a.who, ops)));
      assert b + [] == b;
    }
  }

  lemma {:induction false} SyncsReachWraps(a: Attachment, j: nat, inbound: seq<(nat, Sync)>)
    ensures SyncsReach(a, j, inbound) == a.(sent := a.sent + Wrap(FramesOf(a.who, j, inbound)))
    decreases |inbound|
  {
    if inbound == [] {
      assert a.sent + Wrap([]) == a.sent;
    } else {
      var init, s := inbound[..|inbound| - 1], inbound[|inbound| - 1].1;
      SyncsReachWraps(a, j, init);
      var w := FramesOf(a.who, j, init);
      assert Wrap(w + [ReadableSync(a.who, s)]) == Wrap(w) + [SyncMsg(ReadableSync(a.who, s))];
      assert w + [] == w;
    }
  }

  lemma {:induction false} BatchesOfAppend(a: Member, j: nat, x: seq<(nat, seq<Op>)>, y: seq<(nat, seq<Op>)>,
      xy: seq<(nat, seq<Op>)>)
    requires xy == x + y
    ensures BatchesOf(a, j, xy) == BatchesOf(a, j, x) + BatchesOf(a, j, y)
    decreases |y|
  {
    if y == [] {
      assert xy == x;
    } else {
      assert xy[..|xy| - 1] == x + y[..|y| - 1];
      BatchesOfAppend(a, j, x, y[..|y| - 1], xy[..|xy| - 1]);
    }
  }

  lemma {:induction false} FramesOfAppend(a: Member, j: nat, x: seq<(nat, Sync)>, y: seq<(nat, Sync)>,
      xy: seq<(nat, Sync)>)
    requires xy == x + y
    ensures FramesOf(a, j, xy) == FramesOf(a, j, x) + FramesOf(a, j, y)
    decreases |y|
  {
    if y == [] {
      assert xy == x;
    } else {
      assert xy[..|xy| - 1] == x + y[..|y| - 1];
      FramesOfAppend(a, j, x, y[..|y| - 1], xy[..|xy| - 1]);
    }
  }

  lemma BatchesOfOne(to: Member, j: nat, i: nat, ops: seq<Op>)
    ensures BatchesOf(to, j, [(i, ops)]) ==
            if i == j || ReadableOps(to, ops) == [] then [] else [Bundle(ReadableOps(to, ops))]
  {
    assert [(i, ops)][..0] == [];
    assert BatchesOf(to, j, []) == [];
  }

  lemma FramesOfOne(to: Member, j: nat, i: nat, s: Sync)
    ensures FramesOf(to, j, [(i, s)]) == if i == j || ReadableSync(to, s).ops == [] then [] else [ReadableSync(to, s)]
  {
    assert [(i, s)][..0] == [];
    assert FramesOf(to, j, []) == [];
  }

  /** One source's writes, as the receiver sees them. */
  lemma {:induction false} WritesSeen(from: Member, to: Member, i: nat, j: nat, msgs: seq<Message>)
    ensures BatchesOf(to, j, WritesFrom(from, i, msgs)) == if i == j then [] else BatchesFrom(from, to, msgs)
    decreases |msgs|
  {
    if msgs != [] {
      var init, last := msgs[..|msgs| - 1], msgs[|msgs| - 1];
      var ops := AuthorizeInbound(from, last);
      WritesSeen(from, to, i, j, init);
      if ops != [] {
        BatchesOfAppend(to, j, WritesFrom(from, i, init), [(i, ops)], WritesFrom(from, i, msgs));
        BatchesOfOne(to, j, i, ops);
      } else {
        assert WritesFrom(from, i, init) + [] == WritesFrom(from, i, init);
      }
    }
  }

  lemma {:induction false} SyncsSeen(to: Member, i: nat, j: nat, msgs: seq<Message>)
    ensures FramesOf(to, j, SyncsFrom(i, msgs)) == if i == j then [] else FramesFrom(to, msgs)
    decreases |msgs|
  {
    if msgs != [] {
      var init, last := msgs[..|msgs| - 1], msgs[|msgs| - 1];
      SyncsSeen(to, i, j, init);
      if last.SyncMsg? {
        FramesOfAppend(to, j, SyncsFrom(i, init), [(i, last.sync)], SyncsFrom(i, msgs));
        FramesOfOne(to, j, i, last.sync);
      } else {
        assert SyncsFrom(i, init) + [] == SyncsFrom(i, init);
      }
    }
  }

  lemma {:induction false} WritesFlatten(who: seq<Member>, inbox: seq<seq<Message>>, to: Member, j: nat,
      shares: seq<seq<Bundle>>)
    requires |shares| <= |who| == |inbox|
    requires forall i :: 0 <= i < |shares| ==> BatchesOf(to, j, WritesFrom(who[i], i, inbox[i])) == shares[i]
    ensures BatchesOf(to, j, Writes(who, inbox, |shares|)) == Flatten(shares)
    decreases |shares|
  {
    var n := |shares| - 1;
    if n >= 0 {
      WritesFlatten(who, inbox, to, j, shares[..n]);
      BatchesOfAppend(to, j, Writes(who, inbox, n), WritesFrom(who[n], n, inbox[n]), Writes(who, inbox, n + 1));
    }
  }

  lemma {:induction false} SyncsFlatten(inbox: seq<seq<Message>>, to: Member, j: nat, shares: seq<seq<Sync>>)
    requires |shares| <= |inbox|
    requires forall i :: 0 <= i < |shares| ==> FramesOf(to, j, SyncsFrom(i, inbox[i])) == shares[i]
    ensures FramesOf(to, j, Syncs(inbox, |shares|)) == Flatten(shares)
    decreases |shares|
  {
    var n := |shares| - 1;
    if n >= 0 {
      SyncsFlatten(inbox, to, j, shares[..n]);
      FramesOfAppend(to, j, Syncs(inbox, n), SyncsFrom(n, inbox[n]), Syncs(inbox, n + 1));
    }
  }

  lemma InboundSeen(who: seq<Member>, inbox: seq<seq<Message>>, j: nat)
    requires |who| == |inbox| && j < |who|
    ensures BatchesOf(who[j], j, Writes(who, inbox, |who|)) == Batches(who, inbox, j)
    ensures FramesOf(who[j], j, Syncs(inbox, |who|)) == FramesTo(who, inbox, j)
  {
    forall i | 0 <= i < |who|
      ensures BatchesOf(who[j], j, WritesFrom(who[i], i, inbox[i])) == Shares(who, inbox, j)[i]
      ensures FramesOf(who[j], j, SyncsFrom(i, inbox[i])) == SyncShares(who, inbox, j)[i]
    {
      WritesSeen(who[i], who[j], i, j, inbox[i]);
      SyncsSeen(who[j], i, j, inbox[i]);
    }
    WritesFlatten(who, inbox, who[j], j, Shares(who, inbox, j));
    SyncsFlatten(inbox, who[j], j, SyncShares(who, inbox, j));
  }

  /** A poll serves a peer the batches and frames of the others, stamped from its own epoch. */
  lemma PollServes(atts: seq<Attachment>, inbox: seq<seq<Message>>, j: nat)
    requires |inbox| == |atts| && j < |atts|
    ensures
      var a := atts[j];
      var b := Batches(Members(atts), inbox, j);
      PollTo(atts, inbox)[j] ==
      a.(outEpoch := a.outEpoch + |b|,
         sent := a.sent + Stamp(a.outEpoch, b) + Wrap(FramesTo(Members(atts), inbox, j)))
  {
    var a, w, y := atts[j], Writes(Members(atts), inbox, |atts|), Syncs(inbox, |atts|);
    OpsReachStamps(a, j, w);
    SyncsReachWraps(OpsReach(a, j, w), j, y);
    InboundSeen(Members(atts), inbox, j);
  }

  // ---- runs --------------------------------------------------------------------------

  lemma PollKeepsMembers(atts: seq<Attachment>, inbox: seq<seq<Message>>)
    requires |inbox| == |atts|
    ensures Members(PollTo(atts, inbox)) == Members(atts)
  {
    forall j | 0 <= j < |atts| ensures PollTo(atts, inbox)[j].who == atts[j].who {
      PollServes(atts, inbox, j);
    }
  }

  lemma {:induction false} HubRoster(turns: seq<Turn>)
    ensures Members(Hub(turns)) == Roster(turns) && |Hub(turns)| == |Roster(turns)|
    decreases |turns|
  {
    if turns != [] {
      var init, last := turns[..|turns| - 1], turns[|turns| - 1];
      HubRoster(init);
      if last.Round? {
        PollKeepsMembers(Hub(init), Yield(last.inbox, |Hub(init)|));
      } else {
        assert Members(Hub(init) + [Attachment(last.who, 0, [])]) == Members(Hub(init)) + [last.who];
      }
    }
  }

  /** Two inboxes of which `j` may see the same: the same visible batches and frames from every other peer. */
  ghost predicate Alike(who: seq<Member>, x: seq<seq<Message>>, y: seq<seq<Message>>, j: nat)
    requires |x| == |y| == |who|
  {
    forall i :: 0 <= i < |who| && i != j && j < |who| ==>
      BatchesFrom(who[i], who[j], x[i]) == BatchesFrom(who[i], who[j], y[i])
      && FramesFrom(who[j], x[i]) == FramesFrom(who[j], y[i])
  }

  lemma AlikeBatches(who: seq<Member>, x: seq<seq<Message>>, y: seq<seq<Message>>, j: nat)
    requires |x| == |y| == |who| && j < |who| && Alike(who, x, y, j)
    ensures Batches(who, x, j) == Batches(who, y, j) && FramesTo(who, x, j) == FramesTo(who, y, j)
  {
    assert Shares(who, x, j) == Shares(who, y, j) && SyncShares(who, x, j) == SyncShares(who, y, j);
  }

  /** The same attachment, or a poll of which `j` may see the same. */
  ghost predicate AlikeTurn(who: seq<Member>, s: Turn, t: Turn, j: nat) {
    match s
    case Join(_) => t == s
    case Round(inbox) => t.Round? && Alike(who, Yield(inbox, |who|), Yield(t.inbox, |who|), j)
  }

  ghost predicate AlikeRuns(x: seq<Turn>, y: seq<Turn>, j: nat) {
    |x| == |y| && forall k :: 0 <= k < |x| ==> AlikeTurn(Roster(x[..k]), x[k], y[k], j)
  }

  lemma AlikePoll(atts: seq<Attachment>, atts': seq<Attachment>, x: seq<seq<Message>>, y: seq<seq<Message>>, j: nat)
    requires |x| == |y| == |atts| && Members(atts') == Members(atts) && |atts'| == |atts|
    requires j < |atts| && atts'[j] == atts[j] && Alike(Members(atts), x, y, j)
    ensures PollTo(atts, x)[j] == PollTo(atts', y)[j]
  {
    AlikeBatches(Members(atts), x, y, j);
    PollServes(atts, x, j);
    PollServes(atts', y, j);
  }

  /**
   Noninterference: over the whole life of a hub, everything sent to `j`, epochs included, depends
   on the attachments and on what `j` may see of the others' traffic. It is the same whatever `j`
   itself sends, whatever else the others send, and whatever epochs their messages carry.
   */
  lemma {:induction false} Noninterference(x: seq<Turn>, y: seq<Turn>, j: nat)
    requires AlikeRuns(x, y, j)
    ensures Roster(x) == Roster(y) && |Hub(x)| == |Hub(y)|
    ensures j < |Hub(x)| ==> Hub(x)[j] == Hub(y)[j]
    decreases |x|
  {
    HubRoster(x);
    HubRoster(y);
    if x != [] {
      var n := |x| - 1;
      AlikeInit(x, y, j);
      Noninterference(x[..n], y[..n], j);
      HubRoster(x[..n]);
      HubRoster(y[..n]);
      if x[n].Round? && j < |Hub(x[..n])| {
        var size := |Hub(x[..n])|;
        AlikePoll(Hub(x[..n]), Hub(y[..n]), Yield(x[n].inbox, size), Yield(y[n].inbox, size), j);
      }
    }
  }

  lemma AlikeInit(x: seq<Turn>, y: seq<Turn>, j: nat)
    requires AlikeRuns(x, y, j) && x != []
    ensures AlikeRuns(x[..|x| - 1], y[..|x| - 1], j) && AlikeTurn(Roster(x[..|x| - 1]), x[|x| - 1], y[|x| - 1], j)
  {
    var n := |x| - 1;
    forall k | 0 <= k < n ensures AlikeTurn(Roster(x[..n][..k]), x[..n][k], y[..n][k], j) {
      assert x[..n][..k] == x[..k];
      assert AlikeTurn(Roster(x[..k]), x[k], y[k], j);
    }
    assert AlikeTurn(Roster(x[..n]), x[n], y[n], j);
  }

  /** Every other peer's messages with what `j` may not see deleted, and nothing from `j`. */
  function PurgeInbox(who: seq<Member>, inbox: seq<seq<Message>>, j: nat): (r: seq<seq<Message>>)
    requires |inbox| == |who| && j < |who|
    ensures |r| == |inbox|
  {
    seq(|who|, i requires 0 <= i < |who| => if i == j then [] else Purge(who[i], who[j], inbox[i]))
  }

  function PurgeTurn(who: seq<Member>, t: Turn, j: nat): Turn {
    if t.Round? && j < |who| then Round(PurgeInbox(who, Yield(t.inbox, |who|), j)) else t
  }

  function PurgeAll(turns: seq<Turn>, j: nat): seq<Turn> {
    seq(|turns|, k requires 0 <= k < |turns| => PurgeTurn(Roster(turns[..k]), turns[k], j))
  }

  lemma PurgedIsAlike(who: seq<Member>, inbox: seq<seq<Message>>, j: nat)
    requires |inbox| == |who| && j < |who|
    ensures Alike(who, inbox, PurgeInbox(who, inbox, j), j)
  {
    forall i | 0 <= i < |who| && i != j
      ensures BatchesFrom(who[i], who[j], inbox[i]) == BatchesFrom(who[i], who[j], PurgeInbox(who, inbox, j)[i])
      ensures FramesFrom(who[j], inbox[i]) == FramesFrom(who[j], PurgeInbox(who, inbox, j)[i])
    {
      PurgeKeepsBatches(who[i], who[j], inbox[i], Purge(who[i], who[j], inbox[i]));
      PurgeKeepsFrames(who[i], who[j], inbox[i], Purge(who[i], who[j], inbox[i]));
    }
  }

  lemma PurgedTurnIsAlike(who: seq<Member>, t: Turn, j: nat)
    ensures AlikeTurn(who, t, PurgeTurn(who, t, j), j)
  {
    if t.Round? && j < |who| {
      var inbox := Yield(t.inbox, |who|);
      PurgedIsAlike(who, inbox, j);
      assert Yield(PurgeInbox(who, inbox, j), |who|) == PurgeInbox(who, inbox, j);
    }
  }

  /** Deleting every operation `j` may not see, and all that `j` sent, changes nothing that `j` receives. */
  lemma DeletionIsInvisible(turns: seq<Turn>, j: nat)
    requires j < |Hub(turns)|
    ensures |Hub(PurgeAll(turns, j))| == |Hub(turns)| && Hub(PurgeAll(turns, j))[j] == Hub(turns)[j]
  {
    forall k | 0 <= k < |turns| ensures AlikeTurn(Roster(turns[..k]), turns[k], PurgeAll(turns, j)[k], j) {
      PurgedTurnIsAlike(Roster(turns[..k]), turns[k], j);
    }
    Noninterference(turns, PurgeAll(turns, j), j);
  }

  // ---- the stream itself ----------------------------------------------------------------

  function Deltas(sent: seq<Message>): seq<Delta> {
    if sent == [] then []
    else
      var m := sent[|sent| - 1];
      Deltas(sent[..|sent| - 1]) + if m.DeltaMsg? then [m.delta] else []
  }

  lemma {:induction false} DeltasAppend(s: seq<Message>, t: seq<Message>)
    ensures Deltas(s + t) == Deltas(s) + Deltas(t)
    decreases |t|
  {
    if t == [] {
      assert s + t == s;
    } else {
      var st := s + t;
      assert st[..|st| - 1] == s + t[..|t| - 1];
      DeltasAppend(s, t[..|t| - 1]);
    }
  }

  lemma {:induction false} DeltasOfStamp(epoch: nat, batches: seq<Bundle>)
    ensures |Deltas(Stamp(epoch, batches))| == |batches|
    ensures forall k :: 0 <= k < |batches| ==>
            Deltas(Stamp(epoch, batches))[k] == Delta(epoch + k, epoch + k + 1, batches[k].ops)
    decreases |batches|
  {
    if batches != [] {
      var n := |batches| - 1;
      assert batches == batches[..n] + [batches[n]];
      StampOne(epoch, batches[..n], batches[n]);
      assert Stamp(epoch, batches)[..n] == Stamp(epoch, batches[..n]);
      DeltasOfStamp(epoch, batches[..n]);
    }
  }

  lemma {:induction false} DeltasOfWrap(frames: seq<Sync>)
    ensures Deltas(Wrap(frames)) == []
    decreases |frames|
  {
    if frames != [] {
      assert Wrap(frames)[..|frames| - 1] == Wrap(frames[..|frames| - 1]);
      DeltasOfWrap(frames[..|frames| - 1]);
    }
  }

  /** The k-th delta carries a peer from epoch k to epoch k + 1. */
  ghost predicate Chained(a: Attachment) {
    && |Deltas(a.sent)| == a.outEpoch
    && forall k :: 0 <= k < a.outEpoch ==> Deltas(a.sent)[k].baseEpoch == k && Deltas(a.sent)[k].epoch == k + 1
  }

  lemma ServingChains(a: Attachment, b: seq<Bundle>, w: seq<Sync>)
    requires Chained(a)
    ensures Chained(a.(outEpoch := a.outEpoch + |b|, sent := a.sent + Stamp(a.outEpoch, b) + Wrap(w)))
  {
    var stamped := Stamp(a.outEpoch, b);
    DeltasAppend(a.sent + stamped, Wrap(w));
    DeltasAppend(a.sent, stamped);
    DeltasOfStamp(a.outEpoch, b);
    DeltasOfWrap(w);
    assert Deltas(a.sent + stamped + Wrap(w)) == Deltas(a.sent) + Deltas(stamped);
  }

  lemma PollChains(atts: seq<Attachment>, inbox: seq<seq<Message>>, j: nat)
    requires |inbox| == |atts| && j < |atts| && Chained(atts[j])
    ensures Chained(PollTo(atts, inbox)[j])
  {
    PollServes(atts, inbox, j);
    ServingChains(atts[j], Batches(Members(atts), inbox, j), FramesTo(Members(atts), inbox, j));
  }

  /** From attachment on, the epochs sent to a peer are (0, 1), (1, 2), ... without a gap. */
  lemma {:induction false} EpochsChain(turns: seq<Turn>, j: nat)
    requires j < |Hub(turns)|
    ensures Chained(Hub(turns)[j])
    decreases |turns|
  {
    var init, last := turns[..|turns| - 1], turns[|turns| - 1];
    if j < |Hub(init)| {
      EpochsChain(init, j);
      if last.Round? {
        PollChains(Hub(init), Yield(last.inbox, |Hub(init)|), j);
      }
    }
  }

  // ---- what is delivered ------------------------------------------------------------------

  ghost predicate Within(bundles: seq<Bundle>, op: Op) {
    exists b :: b in bundles && op in b.ops
  }

  ghost predicate Carries(sent: seq<Message>, op: Op) {
    exists m :: m in sent && m.DeltaMsg? && op in m.delta.ops
  }

  /** A delta in which `from` sets a cell that it has been granted to write and `to` has been granted to read. */
  ghost predicate Proposes(from: Member, to: Member, m: Message, op: Op) {
    && m.DeltaMsg? && op in m.delta.ops && op.CellSet?
    && from.peer in from.perms && op.node in from.perms[from.peer].writable
    && to.peer in to.perms && op.node in to.perms[to.peer].readable
  }

  ghost predicate Proposed(from: Member, to: Member, msgs: seq<Message>, op: Op) {
    exists m :: m in msgs && Proposes(from, to, m, op)
  }

  ghost predicate Offered(who: seq<Member>, inbox: seq<seq<Message>>, j: nat, op: Op)
    requires |inbox| == |who| && j < |who|
  {
    exists i :: 0 <= i < |who| && i != j && Proposed(who[i], who[j], inbox[i], op)
  }

  lemma WithinAppend(x: seq<Bundle>, y: seq<Bundle>, op: Op)
    ensures Within(x + y, op) <==> Within(x, op) || Within(y, op)
  {
    if b :| b in x && op in b.ops {
      assert b in x + y;
    }
    if b :| b in y && op in b.ops {
      assert b in x + y;
    }
  }

  lemma BatchCarries(from: Member, to: Member, m: Message, op: Op)
    ensures Within(Batch(from, to, m), op) <==> Proposes(from, to, m, op)
  {
    var ops := AuthorizeInbound(from, m);
    FilterMember(ops, op => Readable(to, op), op);
    if m.DeltaMsg? {
      FilterMember(m.delta.ops, op => Authorized(from, op), op);
    }
    if op in ReadableOps(to, ops) {
      assert Bundle(ReadableOps(to, ops)) in Batch(from, to, m);
    }
  }

  lemma {:induction false} BatchesCarry(from: Member, to: Member, msgs: seq<Message>, op: Op)
    ensures Within(BatchesFrom(from, to, msgs), op) <==> Proposed(from, to, msgs, op)
    decreases |msgs|
  {
    if msgs != [] {
      var init, last := msgs[..|msgs| - 1], msgs[|msgs| - 1];
      BatchesCarry(from, to, init, op);
      BatchCarries(from, to, last, op);
      WithinAppend(BatchesFrom(from, to, init), Batch(from, to, last), op);
      assert msgs == init + [last];
    }
  }

  lemma {:induction false} FlattenCarries(s: seq<seq<Bundle>>, op: Op)
    ensures Within(Flatten(s), op) <==> exists i :: 0 <= i < |s| && Within(s[i], op)
    decreases |s|
  {
    if s != [] {
      var n := |s| - 1;
      FlattenCarries(s[..n], op);
      WithinAppend(Flatten(s[..n]), s[n], op);
      assert forall i :: 0 <= i < n ==> s[..n][i] == s[i];
    }
  }

  lemma AllBatchesCarry(who: seq<Member>, inbox: seq<seq<Message>>, j: nat, op: Op)
    requires |inbox| == |who| && j < |who|
    ensures Within(Batches(who, inbox, j), op) <==> Offered(who, inbox, j, op)
  {
    var shares := Shares(who, inbox, j);
    FlattenCarries(shares, op);
    forall i | 0 <= i < |who| ensures Within(shares[i], op) <==> i != j && Proposed(who[i], who[j], inbox[i], op) {
      BatchesCarry(who[i], who[j], inbox[i], op);
    }
  }

  lemma ServingCarries(sent: seq<Message>, epoch: nat, b: seq<Bundle>, w: seq<Sync>, op: Op)
    ensures Carries(sent + Stamp(epoch, b) + Wrap(w), op) <==> Carries(sent, op) || Within(b, op)
  {
    var all := sent + Stamp(epoch, b) + Wrap(w);
    assert forall m :: m in all <==> m in sent || m in Stamp(epoch, b) || m in Wrap(w);
    if x :| x in b && op in x.ops {
      var k :| 0 <= k < |b| && b[k] == x;
      assert Stamp(epoch, b)[k] in all;
    }
    if m :| m in Stamp(epoch, b) && op in m.delta.ops {
      var k :| 0 <= k < |b| && Stamp(epoch, b)[k] == m;
      assert b[k] in b;
    }
    assert forall m :: m in Wrap(w) ==> m.SyncMsg?;
  }

  lemma PollCarries(atts: seq<Attachment>, inbox: seq<seq<Message>>, j: nat, op: Op)
    requires |inbox| == |atts| && j < |atts|
    ensures Carries(PollTo(atts, inbox)[j].sent, op) <==>
            Carries(atts[j].sent, op) || Offered(Members(atts), inbox, j, op)
  {
    var b, w := Batches(Members(atts), inbox, j), FramesTo(Members(atts), inbox, j);
    PollServes(atts, inbox, j);
    ServingCarries(atts[j].sent, atts[j].outEpoch, b, w, op);
    AllBatchesCarry(Members(atts), inbox, j, op);
  }

  /** In turn `k`, some other peer offered `op` to `j`. */
  ghost predicate OfferedAt(turns: seq<Turn>, k: nat, j: nat, op: Op) {
    && k < |turns| && turns[k].Round? && j < |Roster(turns[..k])|
    && Offered(Roster(turns[..k]), Yield(turns[k].inbox, |Roster(turns[..k])|), j, op)
  }

  ghost predicate EverOffered(turns: seq<Turn>, j: nat, op: Op) {
    exists k: nat :: OfferedAt(turns, k, j, op)
  }

  lemma OfferedGrows(turns: seq<Turn>, j: nat, op: Op)
    requires turns != []
    ensures
      var n := |turns| - 1;
      EverOffered(turns, j, op) <==> EverOffered(turns[..n], j, op) || OfferedAt(turns, n, j, op)
  {
    var n := |turns| - 1;
    forall k: nat | k < n ensures OfferedAt(turns[..n], k, j, op) <==> OfferedAt(turns, k, j, op) {
      assert turns[..n][..k] == turns[..k];
    }
    if k: nat :| OfferedAt(turns, k, j, op) {
      assert k < n ==> OfferedAt(turns[..n], k, j, op);
    }
  }

  /** A peer that is not attached yet has been offered nothing. */
  lemma NothingBefore(turns: seq<Turn>, j: nat, op: Op)
    requires j >= |Roster(turns)|
    ensures !EverOffered(turns, j, op)
  {
    forall k: nat | k <= |turns| ensures |Roster(turns[..k])| <= |Roster(turns)| {
      RosterGrows(turns, k);
    }
  }

  lemma {:induction false} RosterGrows(turns: seq<Turn>, k: nat)
    requires k <= |turns|
    ensures |Roster(turns[..k])| <= |Roster(turns)|
    decreases |turns|
  {
    if k < |turns| {
      assert turns[..|turns| - 1][..k] == turns[..k];
      RosterGrows(turns[..|turns| - 1], k);
    } else {
      assert turns[..k] == turns;
    }
  }

  /**
   Over the whole life of a hub a peer is sent exactly the cell writes that some other peer, while
   both were attached, proposed, was allowed to make, and that the receiver may read: no forged
   structure, nothing that only it wrote itself, and none withheld.
   */
  lemma {:induction false} DeliveredExactly(turns: seq<Turn>, j: nat, op: Op)
    requires j < |Hub(turns)|
    ensures Carries(Hub(turns)[j].sent, op) <==> EverOffered(turns, j, op)
    decreases |turns|
  {
    var n := |turns| - 1;
    var init, last := turns[..n], turns[n];
    HubRoster(init);
    OfferedGrows(turns, j, op);
    if j < |Hub(init)| {
      DeliveredExactly(init, j, op);
      if last.Round? {
        PollCarries(Hub(init), Yield(last.inbox, |Hub(init)|), j, op);
      }
    } else {
      NothingBefore(init, j, op);
    }
  }

  // ---- sync frames -----------------------------------------------------------------------------

  /** A frame with frontier `f` in which `to` is shown `op`. */
  ghost predicate CarriesSync(sent: seq<Message>, f: Frontier, op: SyncOp) {
    exists m :: m in sent && m.SyncMsg? && m.sync.frontier == f && op in m.sync.ops
  }

  /** A message that is such a frame, with an operation on a node that `to` has been granted to read. */
  ghost predicate ShowsTo(to: Member, m: Message, f: Frontier, op: SyncOp) {
    && m.SyncMsg? && m.sync.frontier == f && op in m.sync.ops
    && to.peer in to.perms && op.node in to.perms[to.peer].readable
  }

  ghost predicate Among(frames: seq<Sync>, f: Frontier, op: SyncOp) {
    exists s :: s in frames && s.frontier == f && op in s.ops
  }

  lemma AmongAppend(x: seq<Sync>, y: seq<Sync>, f: Frontier, op: SyncOp)
    ensures Among(x + y, f, op) <==> Among(x, f, op) || Among(y, f, op)
  {
    if s :| s in x && s.frontier == f && op in s.ops {
      assert s in x + y;
    }
    if s :| s in y && s.frontier == f && op in s.ops {
      assert s in x + y;
    }
  }

  lemma FrameCarries(to: Member, m: Message, f: Frontier, op: SyncOp)
    ensures Among(Frame(to, m), f, op) <==> ShowsTo(to, m, f, op)
  {
    if m.SyncMsg? {
      FilterMember(m.sync.ops, (o: SyncOp) => CanRead(to.perms, to.peer, o.node), op);
      if op in ReadableSync(to, m.sync).ops {
        assert ReadableSync(to, m.sync) in Frame(to, m);
      }
    }
  }

  lemma {:induction false} FramesCarry(to: Member, msgs: seq<Message>, f: Frontier, op: SyncOp)
    ensures Among(FramesFrom(to, msgs), f, op) <==> exists m :: m in msgs && ShowsTo(to, m, f, op)
    decreases |msgs|
  {
    if msgs != [] {
      var init, last := msgs[..|msgs| - 1], msgs[|msgs| - 1];
      FramesCarry(to, init, f, op);
      FrameCarries(to, last, f, op);
      AmongAppend(FramesFrom(to, init), Frame(to, last), f, op);
      assert msgs == init + [last];
    }
  }

  lemma {:induction false} FlattenAmong(s: seq<seq<Sync>>, f: Frontier, op: SyncOp)
    ensures Among(Flatten(s), f, op) <==> exists i :: 0 <= i < |s| && Among(s[i], f, op)
    decreases |s|
  {
    if s != [] {
      var n := |s| - 1;
      FlattenAmong(s[..n], f, op);
      AmongAppend(Flatten(s[..n]), s[n], f, op);
      assert forall i :: 0 <= i < n ==> s[..n][i] == s[i];
    }
  }

  /** Some other peer's messages hold a frame that shows `op` to `j`. */
  ghost predicate Shared(who: seq<Member>, inbox: seq<seq<Message>>, j: nat, f: Frontier, op: SyncOp)
    requires |inbox| == |who| && j < |who|
  {
    exists i, m :: 0 <= i < |who| && i != j && m in inbox[i] && ShowsTo(who[j], m, f, op)
  }

  lemma AllFramesCarry(who: seq<Member>, inbox: seq<seq<Message>>, j: nat, f: Frontier, op: SyncOp)
    requires |inbox| == |who| && j < |who|
    ensures Among(FramesTo(who, inbox, j), f, op) <==> Shared(who, inbox, j, f, op)
  {
    var shares := SyncShares(who, inbox, j);
    FlattenAmong(shares, f, op);
    forall i | 0 <= i < |who|
      ensures Among(shares[i], f, op) <==> i != j && exists m :: m in inbox[i] && ShowsTo(who[j], m, f, op)
    {
      FramesCarry(who[j], inbox[i], f, op);
    }
  }

  lemma ServingCarriesSync(sent: seq<Message>, epoch: nat, b: seq<Bundle>, w: seq<Sync>, f: Frontier, op: SyncOp)
    ensures CarriesSync(sent + Stamp(epoch, b) + Wrap(w), f, op) <==> CarriesSync(sent, f, op) || Among(w, f, op)
  {
    var all := sent + Stamp(epoch, b) + Wrap(w);
    assert forall m :: m in all <==> m in sent || m in Stamp(epoch, b) || m in Wrap(w);
    if s :| s in w && s.frontier == f && op in s.ops {
      var k :| 0 <= k < |w| && w[k] == s;
      assert Wrap(w)[k] in all;
    }
    if m :| m in Wrap(w) && m.sync.frontier == f && op in m.sync.ops {
      var k :| 0 <= k < |w| && Wrap(w)[k] == m;
      assert w[k] in w;
    }
    assert forall m :: m in Stamp(epoch, b) ==> m.DeltaMsg?;
  }

  lemma PollCarriesSync(atts: seq<Attachment>, inbox: seq<seq<Message>>, j: nat, f: Frontier, op: SyncOp)
    requires |inbox| == |atts| && j < |atts|
    ensures CarriesSync(PollTo(atts, inbox)[j].sent, f, op) <==>
            CarriesSync(atts[j].sent, f, op) || Shared(Members(atts), inbox, j, f, op)
  {
    PollServes(atts, inbox, j);
    ServingCarriesSync(atts[j].sent, atts[j].outEpoch, Batches(Members(atts), inbox, j),
        FramesTo(Members(atts), inbox, j), f, op);
    AllFramesCarry(Members(atts), inbox, j, f, op);
  }

  /** In turn `k`, some other peer's frame showed `op` to `j`. */
  ghost predicate SharedAt(turns: seq<Turn>, k: nat, j: nat, f: Frontier, op: SyncOp) {
    && k < |turns| && turns[k].Round? && j < |Roster(turns[..k])|
    && Shared(Roster(turns[..k]), Yield(turns[k].inbox, |Roster(turns[..k])|), j, f, op)
  }

  /** Over the whole life of a hub a peer is shown exactly the sync operations of others that it may read. */
  lemma {:induction false} SyncDeliveredExactly(turns: seq<Turn>, j: nat, f: Frontier, op: SyncOp)
    requires j < |Hub(turns)|
    ensures CarriesSync(Hub(turns)[j].sent, f, op) <==> exists k: nat :: SharedAt(turns, k, j, f, op)
    decreases |turns|
  {
    var n := |turns| - 1;
    var init, last := turns[..n], turns[n];
    HubRoster(init);
    forall k: nat | k < n ensures SharedAt(init, k, j, f, op) <==> SharedAt(turns, k, j, f, op) {
      assert init[..k] == turns[..k];
    }
    if j < |Hub(init)| {
      SyncDeliveredExactly(init, j, f, op);
      if last.Round? {
        PollCarriesSync(Hub(init), Yield(last.inbox, |Hub(init)|), j, f, op);
        assert SharedAt(turns, n, j, f, op) <==> Shared(Roster(init), Yield(last.inbox, |Roster(init)|), j, f, op);
      }
      assert (exists k: nat :: SharedAt(turns, k, j, f, op)) <==>
             SharedAt(turns, n, j, f, op) || exists k: nat :: SharedAt(init, k, j, f, op);
    } else {
      forall k: nat | k <= n ensures !SharedAt(turns, k, j, f, op) {
        assert init[..k] == turns[..k];
        RosterGrows(init, k);
      }
    }
  }
}
