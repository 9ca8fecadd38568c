/**
 A single-writer lease with a monotone fencing token, its history over every run, and the lock
 that validates tokens against it.
 */
module Lease {
  import opened Prelude

  type Peer(==, !new)

  datatype State = State(holder: Option<Peer>, expiry: nat, fence: nat)

  const FREE := State(None, 0, 0)

  predicate IsExpired(s: State, now: nat) {
    s.holder.Some? && now >= s.expiry
  }

  predicate IsHeld(s: State, now: nat) {
    s.holder.Some? && !IsExpired(s, now)
  }

  function HolderAt(s: State, now: nat): Option<Peer> {
    if IsHeld(s, now) then s.holder else None
  }

  /** `acquire`: a new grant takes a new token, a renewal keeps it, a foreign hold refuses. */
  function AcquireFrom(s: State, p: Peer, now: nat, ttl: nat): (State, Option<nat>) {
    if !IsHeld(s, now) then (State(Some(p), now + ttl, s.fence + 1), Some(s.fence + 1))
    else if s.holder == Some(p) then (s.(expiry := now + ttl), Some(s.fence))
    else (s, None)
  }

  function RenewFrom(s: State, p: Peer, now: nat, ttl: nat): (State, bool) {
    if IsHeld(s, now) && s.holder == Some(p) then (s.(expiry := now + ttl), true) else (s, false)
  }

  function ReleaseFrom(s: State, p: Peer): State {
    if s.holder == Some(p) then s.(holder := None) else s
  }

  function TickFrom(s: State, now: nat): (State, bool) {
    if IsExpired(s, now) then (s.(holder := None), true) else (s, false)
  }

  /** `validate` */
  predicate Validate(s: State, token: nat) {
    s.fence == token
  }

  class LeaseCore {
    var holder: Option<Peer>
    var expiry: nat
    var fence: nat

    ghost function Contents(): State
      reads this
    {
      State(holder, expiry, fence)
    }

    constructor ()
      ensures Contents() == FREE
    {
      holder, expiry, fence := None, 0, 0;
    }

    method Acquire(p: Peer, now: nat, ttl: nat) returns (token: Option<nat>)
      modifies this
      ensures (Contents(), token) == AcquireFrom(old(Contents()), p, now, ttl)
    {
      var free := match holder { case None => true case Some(_) => now >= expiry };
      if free {
        fence := fence + 1;
        holder := Some(p);
        expiry := now + ttl;
        return Some(fence);
      }
      if holder == Some(p) {
        expiry := now + ttl;
        return Some(fence);
      }
      return None;
    }

    method Renew(p: Peer, now: nat, ttl: nat) returns (ok: bool)
      modifies `expiry
      ensures (Contents(), ok) == RenewFrom(old(Contents()), p, now, ttl)
    {
      ok := holder.Some? && now < expiry && holder == Some(p);
      if ok {
        expiry := now + ttl;
      }
    }

    method Release(p: Peer)
      modifies `holder
      ensures Contents() == ReleaseFrom(old(Contents()), p)
    {
      if holder == Some(p) {
        holder := None;
      }
    }

    method Tick(now: nat) returns (expired: bool)
      modifies `holder
      ensures (Contents(), expired) == TickFrom(old(Contents()), now)
    {
      expired := holder.Some? && now >= expiry;
      if expired {
        holder := None;
      }
    }
  }
}

/** Every run with a clock that does not go back. */
module LeaseHistory {
  import opened Prelude
  import opened Lease

  /** The life of one token: granted to `peer` at `start`, good for times before `end`. */
  datatype Span = Span(peer: Peer, start: nat, end: nat)

  /** The lease with its clock and the life of every token granted; token `t` is `spans[t - 1]`. */
  datatype World = World(lease: State, clock: nat, spans: seq<Span>)

  datatype Action =
    | Acquire(peer: Peer, now: nat, ttl: nat)
    | Renew(peer: Peer, now: nat, ttl: nat)
    | Release(peer: Peer, now: nat)
    | Tick(now: nat)

  const START := World(FREE, 0, [])

  /** The current token's life, moved to end at `end`. */
  function Until(spans: seq<Span>, end: nat): seq<Span> {
    if spans == [] then [] else spans[|spans| - 1 := spans[|spans| - 1].(end := end)]
  }

  function Min(a: nat, b: nat): nat {
    if a <= b then a else b
  }

  function Do(w: World, a: Action): World {
    match a
    case Acquire(p, now, ttl) =>
      var (lease, token) := AcquireFrom(w.lease, p, now, ttl);
      var spans :=
        if token.None? then w.spans
        else if token.value > w.lease.fence then w.spans + [Span(p, now, now + ttl)]
        else Until(w.spans, now + ttl);
      World(lease, now, spans)
    case Renew(p, now, ttl) =>
      var (lease, ok) := RenewFrom(w.lease, p, now, ttl);
      World(lease, now, if ok then Until(w.spans, now + ttl) else w.spans)
    case Release(p, now) =>
      World(ReleaseFrom(w.lease, p), now,
            if w.lease.holder == Some(p) then Until(w.spans, Min(w.lease.expiry, now)) else w.spans)
    case Tick(now) => World(TickFrom(w.lease, now).0, now, w.spans)
  }

  function Run(actions: seq<Action>): World {
    if actions == [] then START else Do(Run(actions[..|actions| - 1]), actions[|actions| - 1])
  }

  ghost predicate Timely(actions: seq<Action>) {
    forall i, j :: 0 <= i < j < |actions| ==> actions[i].now <= actions[j].now
  }

  // ---- invariant ---------------------------------------------------------------------

  /** Lives follow one another, all begun by `now`. */
  ghost predicate Ordered(spans: seq<Span>, now: nat) {
    && (forall k :: 0 <= k < |spans| ==> spans[k].start <= now && spans[k].start <= spans[k].end)
    && (forall i, j :: 0 <= i < j < |spans| ==> spans[i].end <= spans[j].start)
  }

  ghost predicate LeaseInv(w: World) {
    && |w.spans| == w.lease.fence && Ordered(w.spans, w.clock)
    && (w.lease.holder.Some? ==>
          && w.spans != []
          && w.spans[|w.spans| - 1].peer == w.lease.holder.value && w.spans[|w.spans| - 1].end == w.lease.expiry)
    && (w.lease.holder.None? && w.spans != [] ==> w.spans[|w.spans| - 1].end <= w.clock)
  }

  lemma UntilOrdered(spans: seq<Span>, now: nat, later: nat, end: nat)
    requires Ordered(spans, now) && now <= later && (spans != [] ==> spans[|spans| - 1].start <= end)
    ensures Ordered(Until(spans, end), later)
  {
  }

  lemma GrantOrdered(spans: seq<Span>, now: nat, p: Peer, later: nat, ttl: nat)
    requires Ordered(spans, now) && now <= later && (spans != [] ==> spans[|spans| - 1].end <= later)
    ensures Ordered(spans + [Span(p, later, later + ttl)], later)
  {
    var all := spans + [Span(p, later, later + ttl)];
    forall i, j | 0 <= i < j < |all| ensures all[i].end <= all[j].start {
      if j == |spans| && i < j - 1 {
        assert spans[i].end <= spans[j - 1].start;
      }
    }
  }

  lemma AcquireKeeps(w: World, p: Peer, now: nat, ttl: nat)
    requires LeaseInv(w) && w.clock <= now
    ensures LeaseInv(Do(w, Acquire(p, now, ttl)))
  {
    if !IsHeld(w.lease, now) {
      GrantOrdered(w.spans, w.clock, p, now, ttl);
    } else {
      UntilOrdered(w.spans, w.clock, now, now + ttl);
    }
  }

  lemma ReleaseKeeps(w: World, p: Peer, now: nat)
    requires LeaseInv(w) && w.clock <= now
    ensures LeaseInv(Do(w, Release(p, now)))
  {
    if w.lease.holder == Some(p) {
      UntilOrdered(w.spans, w.clock, now, Min(w.lease.expiry, now));
    }
  }

  lemma DoKeeps(w: World, a: Action)
    requires LeaseInv(w) && w.clock <= a.now
    ensures LeaseInv(Do(w, a)) && Do(w, a).clock == a.now
  {
    match a
    case Acquire(p, now, ttl) => AcquireKeeps(w, p, now, ttl);
    case Renew(p, now, ttl) => UntilOrdered(w.spans, w.clock, now, now + ttl);
    case Release(p, now) => ReleaseKeeps(w, p, now);
    case Tick(now) =>
  }

  lemma {:induction false} RunKeeps(actions: seq<Action>)
    requires Timely(actions)
    ensures LeaseInv(Run(actions))
    ensures actions != [] ==> Run(actions).clock == actions[|actions| - 1].now
    decreases |actions|
  {
    if actions != [] {
      RunKeeps(actions[..|actions| - 1]);
      DoKeeps(Run(actions[..|actions| - 1]), actions[|actions| - 1]);
    }
  }

  // ---- exclusion -------------------------------------------------------------------------

  predicate LiveAt(s: Span, t: nat) {
    s.start <= t < s.end
  }

  /**
   Exclusion: at no instant are two tokens live, and the lease's own answer about its holder is
   the one token live now, which is the latest.
   */
  lemma AtMostOneLive(actions: seq<Action>, t: nat)
    requires Timely(actions)
    ensures
      var w := Run(actions);
      && |w.spans| == w.lease.fence
      && (forall i, j :: 0 <= i < j < |w.spans| ==> !(LiveAt(w.spans[i], t) && LiveAt(w.spans[j], t)))
      && (forall k :: 0 <= k < |w.spans| && LiveAt(w.spans[k], w.clock) ==>
            k + 1 == w.lease.fence && HolderAt(w.lease, w.clock) == Some(w.spans[k].peer))
      && (IsHeld(w.lease, w.clock) ==> w.spans != [] && LiveAt(w.spans[|w.spans| - 1], w.clock))
  {
    RunKeeps(actions);
  }

  // ---- what never changes -------------------------------------------------------------------

  /** A later history: more tokens, none reassigned, and nothing rewritten before `now`. */
  ghost predicate Continues(before: seq<Span>, later: seq<Span>, now: nat) {
    && |before| <= |later|
    && (forall k :: 0 <= k < |before| ==> later[k].peer == before[k].peer && later[k].start == before[k].start)
    && (forall k, t: nat :: 0 <= k < |before| && t < now ==> (LiveAt(later[k], t) <==> LiveAt(before[k], t)))
    && (forall k :: |before| <= k < |later| ==> now <= later[k].start)
  }

  lemma DoContinues(w: World, a: Action, now: nat)
    requires LeaseInv(w) && now <= w.clock <= a.now
    ensures Continues(w.spans, Do(w, a).spans, now)
  {
  }

  lemma ContinuesTrans(x: seq<Span>, y: seq<Span>, z: seq<Span>, now: nat)
    requires Continues(x, y, now) && Continues(y, z, now)
    ensures Continues(x, z, now)
  {
    forall k, t: nat | 0 <= k < |x| && t < now ensures LiveAt(z[k], t) <==> LiveAt(x[k], t) {
      assert LiveAt(y[k], t) <==> LiveAt(x[k], t);
      assert LiveAt(z[k], t) <==> LiveAt(y[k], t);
    }
  }

  /** Each token keeps its peer and its start; what has been live or not in the past stays so. */
  lemma {:induction false} TokensKeepTheirPeer(actions: seq<Action>, more: seq<Action>)
    requires Timely(actions + more)
    ensures Timely(actions) && Continues(Run(actions).spans, Run(actions + more).spans, Run(actions).clock)
    decreases |more|
  {
    var all := actions + more;
    assert forall i :: 0 <= i < |actions| ==> all[i] == actions[i];
    if more == [] {
      assert all == actions;
    } else {
      var init := more[..|more| - 1];
      assert all[..|all| - 1] == actions + init;
      TokensKeepTheirPeer(actions, init);
      RunKeeps(actions);
      RunKeeps(actions + init);
      ClockOnward(actions, init);
      DoContinues(Run(actions + init), all[|all| - 1], Run(actions).clock);
      ContinuesTrans(Run(actions).spans, Run(actions + init).spans, Run(all).spans, Run(actions).clock);
    }
  }

  lemma ClockOnward(actions: seq<Action>, more: seq<Action>)
    requires Timely(actions + more)
    ensures Run(actions).clock <= Run(actions + more).clock
    ensures Timely(actions)
  {
    var all := actions + more;
    assert forall i :: 0 <= i < |actions| ==> all[i] == actions[i];
    RunKeeps(actions);
    RunKeeps(all);
    if more == [] {
      assert all == actions;
    } else if actions != [] {
      assert all[|actions| - 1].now <= all[|all| - 1].now;
    }
  }

  /** Whatever the peer gets from `acquire` is the latest token, which is the peer's; a renewal is the same token. */
  lemma AcquireGrants(w: World, p: Peer, now: nat, ttl: nat)
    requires LeaseInv(w) && w.clock <= now
    ensures
      var token := AcquireFrom(w.lease, p, now, ttl).1;
      var w' := Do(w, Acquire(p, now, ttl));
      && (token.Some? ==>
            && Validate(w'.lease, token.value) && 0 < token.value <= |w'.spans| && w'.spans[token.value - 1].peer == p
            && (token.value == w.lease.fence + 1 <==> !IsHeld(w.lease, now))
            && (token.value == w.lease.fence <==> HolderAt(w.lease, now) == Some(p)))
      && (token.None? <==> HolderAt(w.lease, now).Some? && HolderAt(w.lease, now) != Some(p))
  {
  }

  /** A renewal succeeds for the live holder and nobody else; it moves the end of the current token and nothing else. */
  lemma RenewExtends(w: World, p: Peer, now: nat, ttl: nat)
    requires LeaseInv(w) && w.clock <= now
    ensures
      var ok := RenewFrom(w.lease, p, now, ttl).1;
      var w' := Do(w, Renew(p, now, ttl));
      && (ok <==> HolderAt(w.lease, now) == Some(p))
      && w'.lease.fence == w.lease.fence
      && (ok ==>
            && (forall t: nat :: HolderAt(w'.lease, t) == if t < now + ttl then Some(p) else None)
            && |w'.spans| == |w.spans| > 0 && w'.spans[..|w.spans| - 1] == w.spans[..|w.spans| - 1]
            && w'.spans[|w.spans| - 1] == Span(p, w.spans[|w.spans| - 1].start, now + ttl))
      && (!ok ==> w'.lease == w.lease && w'.spans == w.spans)
  {
  }

  /** A release by the holder leaves nobody holding at any time; by anybody else it changes nothing. The token stays. */
  lemma ReleaseFrees(w: World, p: Peer, now: nat)
    requires LeaseInv(w) && w.clock <= now
    ensures
      var w' := Do(w, Release(p, now));
      && w'.lease.fence == w.lease.fence
      && (HolderAt(w.lease, now) == Some(p) ==> forall t: nat :: HolderAt(w'.lease, t) == None)
      && (HolderAt(w.lease, now) != Some(p) ==>
            forall t: nat :: now <= t ==> HolderAt(w'.lease, t) == HolderAt(w.lease, t))
  {
  }

  /** A tick changes no answer from then on; it reports the one moment at which a recorded holder is found expired. */
  lemma TickTells(w: World, now: nat)
    requires LeaseInv(w) && w.clock <= now
    ensures
      var edge := TickFrom(w.lease, now).1;
      var w' := Do(w, Tick(now));
      && (forall t: nat :: now <= t ==> HolderAt(w'.lease, t) == HolderAt(w.lease, t))
      && (edge <==> w.lease.holder.Some? && HolderAt(w.lease, now) == None)
      && (w'.lease.holder.Some? <==> HolderAt(w.lease, now).Some?)
      && w'.lease.fence == w.lease.fence && w'.spans == w.spans
      && !TickFrom(w'.lease, now).1
  {
  }

  /** Once a later token has been granted, every earlier one is refused for good. */
  lemma StaleTokensStayRefused(actions: seq<Action>, more: seq<Action>, token: nat)
    requires Timely(actions + more) && token < Run(actions).lease.fence
    ensures !Validate(Run(actions + more).lease, token)
  {
    TokensKeepTheirPeer(actions, more);
    RunKeeps(actions);
    RunKeeps(actions + more);
  }
}
