/**
 The bridge hub: a router between peer channels. An inbound write is authorized against its
 sender, re-filtered to each receiver's read grant and stamped with that receiver's own epoch.
 */
module Bridge {
  import opened Prelude

  type Peer(==, !new)
  type Payload(==, !new)
  type Frontier(==, !new)

  datatype Op =
    | CellSet(node: nat, payload: Payload)
    | SlotValue(node: nat, payload: Payload)
    | Invalidate(node: nat)
    | NodeAdd(node: nat, payload: Payload)
    | NodeRemove(node: nat)
    | EdgeAdd(dependent: nat, dependency: nat)
    | EdgeRemove(dependent: nat, dependency: nat)
    | QueuePush(node: nat, payload: Payload)
    | QueuePop(node: nat)
    | QueueClose(node: nat)

  datatype Delta = Delta(baseEpoch: nat, epoch: nat, ops: seq<Op>)

  datatype SyncOp = SyncOp(node: nat, payload: Payload)

  datatype Sync = Sync(frontier: Frontier, ops: seq<SyncOp>)

  /** `Control` stands for snapshots, resync requests, acknowledgements and delta requests. */
  datatype Message = DeltaMsg(delta: Delta) | SyncMsg(sync: Sync) | Control

  datatype Grant = Grant(readable: set<nat>, writable: set<nat>)

  type Permissions = map<Peer, Grant>

  predicate CanRead(perms: Permissions, peer: Peer, node: nat) {
    peer in perms && node in perms[peer].readable
  }

  predicate CanWrite(perms: Permissions, peer: Peer, node: nat) {
    peer in perms && node in perms[peer].writable
  }

  /** A peer and the grants the hub holds for it. */
  datatype Member = Member(peer: Peer, perms: Permissions)

  /** A member's channel. `sent` is everything handed to its sink so far. */
  datatype Attachment = Attachment(who: Member, outEpoch: nat, sent: seq<Message>)

  function Members(atts: seq<Attachment>): seq<Member> {
    seq(|atts|, i requires 0 <= i < |atts| => atts[i].who)
  }

  predicate Authorized(a: Member, op: Op) {
    op.CellSet? && CanWrite(a.perms, a.peer, op.node)
  }

  predicate Readable(a: Member, op: Op) {
    match op
    case EdgeAdd(d, s) => CanRead(a.perms, a.peer, d) && CanRead(a.perms, a.peer, s)
    case EdgeRemove(d, s) => CanRead(a.perms, a.peer, d) && CanRead(a.perms, a.peer, s)
    case _ => CanRead(a.perms, a.peer, op.node)
  }

  function Filter<T>(s: seq<T>, f: T -> bool): seq<T> {
    if s == [] then []
    else Filter(s[..|s| - 1], f) + if f(s[|s| - 1]) then [s[|s| - 1]] else []
  }

  /** `authorize_inbound` */
  function AuthorizeInbound(a: Member, m: Message): seq<Op> {
    if m.DeltaMsg? then Filter(m.delta.ops, op => Authorized(a, op)) else []
  }

  function ReadableOps(a: Member, ops: seq<Op>): seq<Op> {
    Filter(ops, op => Readable(a, op))
  }

  function ReadableSync(a: Member, s: Sync): Sync {
    s.(ops := Filter(s.ops, (op: SyncOp) => CanRead(a.perms, a.peer, op.node)))
  }

  // ---- phase A: drain ------------------------------------------------------------

  function WritesFrom(a: Member, i: nat, msgs: seq<Message>): seq<(nat, seq<Op>)> {
    if msgs == [] then []
    else
      var ops := AuthorizeInbound(a, msgs[|msgs| - 1]);
      WritesFrom(a, i, msgs[..|msgs| - 1]) + if ops == [] then [] else [(i, ops)]
  }

  function SyncsFrom(i: nat, msgs: seq<Message>): seq<(nat, Sync)> {
    if msgs == [] then []
    else
      var m := msgs[|msgs| - 1];
      SyncsFrom(i, msgs[..|msgs| - 1]) + if m.SyncMsg? then [(i, m.sync)] else []
  }

  function Writes(who: seq<Member>, inbox: seq<seq<Message>>, n: nat): seq<(nat, seq<Op>)>
    requires n <= |who| == |inbox|
  {
    if n == 0 then [] else Writes(who, inbox, n - 1) + WritesFrom(who[n - 1], n - 1, inbox[n - 1])
  }

  function Syncs(inbox: seq<seq<Message>>, n: nat): seq<(nat, Sync)>
    requires n <= |inbox|
  {
    if n == 0 then [] else Syncs(inbox, n - 1) + SyncsFrom(n - 1, inbox[n - 1])
  }

  // ---- phases B and C: fan out ----------------------------------------------------

  function SendOps(a: Attachment, ops: seq<Op>): Attachment {
    var readable := ReadableOps(a.who, ops);
    if readable == [] then a
    else a.(outEpoch := a.outEpoch + 1, sent := a.sent + [DeltaMsg(Delta(a.outEpoch, a.outEpoch + 1, readable))])
  }

  function SendSync(a: Attachment, s: Sync): Attachment {
    var readable := ReadableSync(a.who, s);
    if readable.ops == [] then a else a.(sent := a.sent + [SyncMsg(readable)])
  }

  function OpsReach(a: Attachment, j: nat, inbound: seq<(nat, seq<Op>)>): Attachment {
    if inbound == [] then a
    else
      var (src, ops) := inbound[|inbound| - 1];
      var before := OpsReach(a, j, inbound[..|inbound| - 1]);
      if src == j then before else SendOps(before, ops)
  }

  function SyncsReach(a: Attachment, j: nat, inbound: seq<(nat, Sync)>): Attachment {
    if inbound == [] then a
    else
      var (src, s) := inbound[|inbound| - 1];
      var before := SyncsReach(a, j, inbound[..|inbound| - 1]);
      if src == j then before else SendSync(before, s)
  }

  /** What one poll does to attachment `j`. */
  function Served(atts: seq<Attachment>, inbox: seq<seq<Message>>, j: nat): Attachment
    requires |inbox| == |atts| && j < |atts|
  {
    SyncsReach(OpsReach(atts[j], j, Writes(Members(atts), inbox, |atts|)), j, Syncs(inbox, |atts|))
  }

  function PollTo(atts: seq<Attachment>, inbox: seq<seq<Message>>): (r: seq<Attachment>)
    requires |inbox| == |atts|
    ensures |r| == |atts|
  {
    seq(|atts|, j requires 0 <= j < |atts| => Served(atts, inbox, j))
  }

  /** A peer is attached, or the hub is polled; a source that `inbox` does not list yields nothing. */
  datatype Turn = Join(who: Member) | Round(inbox: seq<seq<Message>>)

  function Yield(inbox: seq<seq<Message>>, n: nat): (r: seq<seq<Message>>)
    ensures |r| == n
  {
    seq(n, i => if 0 <= i < |inbox| then inbox[i] else [])
  }

  /** A hub from its creation on. */
  function Hub(turns: seq<Turn>): seq<Attachment> {
    if turns == [] then []
    else
      var atts := Hub(turns[..|turns| - 1]);
      match turns[|turns| - 1]
      case Join(who) => atts + [Attachment(who, 0, [])]
      case Round(inbox) => PollTo(atts, Yield(inbox, |atts|))
  }

  /** The members attached so far. */
  function Roster(turns: seq<Turn>): seq<Member> {
    if turns == [] then []
    else
      var before := Roster(turns[..|turns| - 1]);
      if turns[|turns| - 1].Join? then before + [turns[|turns| - 1].who] else before
  }

  function TotalSent(atts: seq<Attachment>): nat {
    if atts == [] then 0 else TotalSent(atts[..|atts| - 1]) + |atts[|atts| - 1].sent|
  }

  lemma {:induction false} TotalSentUpdate(atts: seq<Attachment>, j: nat, a: Attachment)
    requires j < |atts|
    ensures TotalSent(atts[j := a]) == TotalSent(atts) - |atts[j].sent| + |a.sent|
    decreases |atts|
  {
    var n := |atts| - 1;
    if j == n {
      assert atts[j := a][..n] == atts[..n];
    } else {
      assert atts[j := a][..n] == atts[..n][j := a];
      TotalSentUpdate(atts[..n], j, a);
    }
  }
}

/** The hub object; `Poll` drains every source, then fans out. */
module BridgeHubs {
  import opened Prelude
  import opened Bridge

  class BridgeHub {
    var attachments: seq<Attachment>

    constructor ()
      ensures attachments == []
    {
      attachments := [];
    }

    method Attach(peer: Peer, perms: Permissions)
      modifies this
      ensures attachments == old(attachments) + [Attachment(Member(peer, perms), 0, [])]
    {
      attachments := attachments + [Attachment(Member(peer, perms), 0, [])];
    }

    /** Everything one source yields until it is empty. */
    method DrainOne(i: nat, msgs: seq<Message>) returns (inbound: seq<(nat, seq<Op>)>, inboundSync: seq<(nat, Sync)>)
      requires i < |attachments|
      ensures inbound == WritesFrom(attachments[i].who, i, msgs) && inboundSync == SyncsFrom(i, msgs)
    {
      inbound, inboundSync := [], [];
      for n := 0 to |msgs|
        invariant inbound == WritesFrom(attachments[i].who, i, msgs[..n]) && inboundSync == SyncsFrom(i, msgs[..n])
      {
        assert msgs[..n + 1][..n] == msgs[..n];
        if msgs[n].SyncMsg? {
          inboundSync := inboundSync + [(i, msgs[n].sync)];
        } else {
          var ops := AuthorizeInbound(attachments[i].who, msgs[n]);
          if ops != [] {
            inbound := inbound + [(i, ops)];
          }
        }
      }
      assert msgs[..|msgs|] == msgs;
    }

    /** Phase A. `inbox[i]` is what the source of attachment `i` yields until it is empty. */
    method Drain(inbox: seq<seq<Message>>) returns (inbound: seq<(nat, seq<Op>)>, inboundSync: seq<(nat, Sync)>)
      requires |inbox| == |attachments|
      ensures inbound == Writes(Members(attachments), inbox, |attachments|) &&
              inboundSync == Syncs(inbox, |attachments|)
    {
      inbound, inboundSync := [], [];
      for i := 0 to |attachments|
        invariant inbound == Writes(Members(attachments), inbox, i) && inboundSync == Syncs(inbox, i)
      {
        var writes, syncs := DrainOne(i, inbox[i]);
        inbound := inbound + writes;
        inboundSync := inboundSync + syncs;
      }
    }

    /** One authorized write to every attachment but its origin. */
    method FanOutOne(src: nat, ops: seq<Op>) returns (routed: nat)
      modifies this
      ensures |attachments| == |old(attachments)|
      ensures forall j :: 0 <= j < |attachments| ==>
                attachments[j] == if j == src then old(attachments)[j] else SendOps(old(attachments)[j], ops)
      ensures TotalSent(attachments) == TotalSent(old(attachments)) + routed
    {
      routed := 0;
      for j := 0 to |attachments|
        invariant |attachments| == |old(attachments)|
        invariant forall k :: 0 <= k < j ==>
                    attachments[k] == if k == src then old(attachments)[k] else SendOps(old(attachments)[k], ops)
        invariant forall k :: j <= k < |attachments| ==> attachments[k] == old(attachments)[k]
        invariant TotalSent(attachments) == TotalSent(old(attachments)) + routed
      {
        if j != src {
          var att := attachments[j];
          var filtered := ReadableOps(att.who, ops);
          if filtered != [] {
            var delta := Delta(att.outEpoch, att.outEpoch + 1, filtered);
            att := att.(outEpoch := att.outEpoch + 1, sent := att.sent + [DeltaMsg(delta)]);
            TotalSentUpdate(attachments, j, att);
            attachments := attachments[j := att];
            routed := routed + 1;
          }
        }
      }
    }

    /** One sync frame to every attachment but its origin. */
    method FanOutSyncOne(src: nat, sync: Sync) returns (routed: nat)
      modifies this
      ensures |attachments| == |old(attachments)|
      ensures forall j :: 0 <= j < |attachments| ==>
                attachments[j] == if j == src then old(attachments)[j] else SendSync(old(attachments)[j], sync)
      ensures TotalSent(attachments) == TotalSent(old(attachments)) + routed
    {
      routed := 0;
      for j := 0 to |attachments|
        invariant |attachments| == |old(attachments)|
        invariant forall k :: 0 <= k < j ==>
                    attachments[k] == if k == src then old(attachments)[k] else SendSync(old(attachments)[k], sync)
        invariant forall k :: j <= k < |attachments| ==> attachments[k] == old(attachments)[k]
        invariant TotalSent(attachments) == TotalSent(old(attachments)) + routed
      {
        if j != src {
          var att := attachments[j];
          var filtered := ReadableSync(att.who, sync);
          if filtered.ops != [] {
            att := att.(sent := att.sent + [SyncMsg(filtered)]);
            TotalSentUpdate(attachments, j, att);
            attachments := attachments[j := att];
            routed := routed + 1;
          }
        }
      }
    }

    /** Phase B. */
    method FanOut(inbound: seq<(nat, seq<Op>)>) returns (routed: nat)
      modifies this
      ensures |attachments| == |old(attachments)|
      ensures forall j :: 0 <= j < |attachments| ==> attachments[j] == OpsReach(old(attachments)[j], j, inbound)
      ensures TotalSent(attachments) == TotalSent(old(attachments)) + routed
    {
      routed := 0;
      for n := 0 to |inbound|
        invariant |attachments| == |old(attachments)|
        invariant forall j :: 0 <= j < |attachments| ==>
                  attachments[j] == OpsReach(old(attachments)[j], j, inbound[..n])
        invariant TotalSent(attachments) == TotalSent(old(attachments)) + routed
      {
        assert inbound[..n + 1][..n] == inbound[..n];
        var more := FanOutOne(inbound[n].0, inbound[n].1);
        routed := routed + more;
      }
      assert inbound[..|inbound|] == inbound;
    }

    /** Phase C. */
    method FanOutSync(inbound: seq<(nat, Sync)>) returns (routed: nat)
      modifies this
      ensures |attachments| == |old(attachments)|
      ensures forall j :: 0 <= j < |attachments| ==> attachments[j] == SyncsReach(old(attachments)[j], j, inbound)
      ensures TotalSent(attachments) == TotalSent(old(attachments)) + routed
    {
      routed := 0;
      for n := 0 to |inbound|
        invariant |attachments| == |old(attachments)|
        invariant forall j :: 0 <= j < |attachments| ==>
                  attachments[j] == SyncsReach(old(attachments)[j], j, inbound[..n])
        invariant TotalSent(attachments) == TotalSent(old(attachments)) + routed
      {
        assert inbound[..n + 1][..n] == inbound[..n];
        var more := FanOutSyncOne(inbound[n].0, inbound[n].1);
        routed := routed + more;
      }
      assert inbound[..|inbound|] == inbound;
    }

    /** Every attachment is served as the specification says; the result counts the messages routed. */
    method Poll(inbox: seq<seq<Message>>) returns (routed: nat)
      requires |inbox| == |attachments|
      modifies this
      ensures attachments == PollTo(old(attachments), inbox)
      ensures TotalSent(attachments) == TotalSent(old(attachments)) + routed
    {
      var inbound, inboundSync := Drain(inbox);
      var deltas := FanOut(inbound);
      var syncs := FanOutSync(inboundSync);
      routed := deltas + syncs;
    }
  }
}
