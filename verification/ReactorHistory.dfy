/** What the graph of any execution consists of: the nodes that were made, and the last value written to each source. */
module ReactorHistory {
  import opened Prelude
  import opened Graph
  import opened Reactor
  import opened ReactorInv
  import opened Freshness

  predicate Makes(a: Action) {
    a.MakeSource? || a.MakeComputed? || a.MakeEffect?
  }

  /** How many nodes the first `n` actions have made. */
  function Made(acts: seq<Action>, n: nat): nat
    requires n <= |acts|
  {
    if n == 0 then 0 else Made(acts, n - 1) + if Makes(acts[n - 1]) then 1 else 0
  }

  /** The action at `i` made node `x`. */
  ghost predicate MadeAt(acts: seq<Action>, n: nat, x: Id, i: nat)
    requires n <= |acts|
  {
    i < n && Makes(acts[i]) && Made(acts, i) == x
  }

  /** `u` is the last value written to source `x` between `i` and `n`, or else the value `v` it was made with. */
  ghost predicate LastWrite(acts: seq<Action>, i: nat, n: nat, x: Id, v: Value, u: Value)
    requires n <= |acts|
  {
    || (u == v && forall j :: i < j < n ==> !(acts[j].Set? && acts[j].cell == x))
    || (exists j :: i < j < n && acts[j] == Set(x, u) && forall k :: j < k < n ==> !(acts[k].Set? && acts[k].cell == x))
  }

  /** Node `x` is what the action `a` made. */
  ghost predicate MadeBy(nodes: Nodes, x: Id, a: Action) {
    match a
    case MakeSource(_) => IsSource(nodes, x)
    case MakeComputed(c) => IsComputed(nodes, x) && nodes[x].compute == c
    case MakeEffect(b) => IsEffect(nodes, x) && nodes[x].body == b
    case _ => false
  }

  /** Only creation adds nodes, and only a write changes what a node was made with. */
  lemma StepInputs(w: World, a: Action, x: Id)
    requires Enabled(w, a) && w.g.freeIds == [] && !Makes(a)
    ensures x in Next(w, a).g.nodes <==> x in w.g.nodes
    ensures Next(w, a).g.nextId == w.g.nextId
    ensures IsSource(w.g.nodes, x) ==>
              IsSource(Next(w, a).g.nodes, x)
              && Next(w, a).g.nodes[x].value == if a.Set? && a.cell == x then a.value else w.g.nodes[x].value
    ensures IsComputed(w.g.nodes, x) ==>
              IsComputed(Next(w, a).g.nodes, x) && Next(w, a).g.nodes[x].compute == w.g.nodes[x].compute
    ensures IsEffect(w.g.nodes, x) ==>
              IsEffect(Next(w, a).g.nodes, x) && Next(w, a).g.nodes[x].body == w.g.nodes[x].body
  {
    match a
    case EffectReads(e, y) => RegisterFacts(w.g.nodes, y, e);
    case ObserveSource(r) => RegisterFacts(w.g.nodes, NextOp(w, r).src, w.runs[r].node);
    case DeclareDep(r) => RegisterFacts(w.g.nodes, NextOp(w, r).dep, w.runs[r].node);
    case _ =>
  }

  lemma MakeAdds(w: World, a: Action)
    requires Enabled(w, a) && w.g.freeIds == [] && Makes(a)
    ensures Next(w, a).g.nextId == w.g.nextId + 1 && w.g.nextId in Next(w, a).g.nodes
    ensures Next(w, a).g.nodes == w.g.nodes[w.g.nextId := Next(w, a).g.nodes[w.g.nextId]]
    ensures MadeBy(Next(w, a).g.nodes, w.g.nextId, a)
    ensures a.MakeSource? ==> Next(w, a).g.nodes[w.g.nextId].value == a.init
  {
  }

  /** The first `m` ids are those in use. */
  ghost predicate Dense(g: Graph, m: nat) {
    g.nextId == m && g.freeIds == [] && forall x: Id :: x in g.nodes <==> x < m
  }

  lemma DenseStep(w: World, a: Action, m: nat)
    requires Enabled(w, a) && Dense(w.g, m) && Next(w, a).g.freeIds == []
    ensures Dense(Next(w, a).g, m + if Makes(a) then 1 else 0)
  {
    if Makes(a) {
      MakeAdds(w, a);
    } else {
      StepInputs(w, a, 0);
      forall x: Id ensures x in Next(w, a).g.nodes <==> x in w.g.nodes {
        StepInputs(w, a, x);
      }
    }
  }

  /** Ids are handed out in order, one per creation. */
  lemma {:induction false} IdsAreMade(ws: seq<World>, acts: seq<Action>, n: nat)
    requires IsExecution(ws, acts) && n <= |acts|
    ensures Dense(ws[n].g, Made(acts, n))
    decreases n
  {
    Reachable(ws, acts, n);
    if n > 0 {
      IdsAreMade(ws, acts, n - 1);
      DenseStep(ws[n - 1], acts[n - 1], Made(acts, n - 1));
    }
  }

  lemma {:induction false} MadeIsOrdered(acts: seq<Action>, i: nat, n: nat)
    requires i <= n <= |acts|
    ensures Made(acts, i) <= Made(acts, n)
    ensures i < n && Makes(acts[i]) ==> Made(acts, i) < Made(acts, n)
    decreases n
  {
    if i < n {
      MadeIsOrdered(acts, i, n - 1);
    }
  }

  lemma LastWriteStep(acts: seq<Action>, i: nat, n: nat, x: Id, v: Value, u: Value)
    requires i < n < |acts| && LastWrite(acts, i, n, x, v, u)
    ensures LastWrite(acts, i, n + 1, x, v, if acts[n].Set? && acts[n].cell == x then acts[n].value else u)
  {
    if acts[n].Set? && acts[n].cell == x {
      assert acts[n] == Set(x, acts[n].value);
    }
  }

  /** Later steps leave what `m` made as it was, but for a write to it. */
  lemma MadeStays(w: World, a: Action, x: Id, m: Action)
    requires Enabled(w, a) && w.g.freeIds == [] && x != w.g.nextId && MadeBy(w.g.nodes, x, m)
    ensures MadeBy(Next(w, a).g.nodes, x, m)
    ensures m.MakeSource? ==>
              Next(w, a).g.nodes[x].value == if a.Set? && a.cell == x then a.value else w.g.nodes[x].value
  {
    if Makes(a) {
      MakeAdds(w, a);
    } else {
      StepInputs(w, a, x);
    }
  }

  /** What holds of the node that `acts[i]` made, `n` actions on. */
  ghost predicate AsMade(nodes: Nodes, acts: seq<Action>, n: nat, x: Id, i: nat)
    requires i < n <= |acts|
  {
    && MadeBy(nodes, x, acts[i])
    && (acts[i].MakeSource? ==> LastWrite(acts, i, n, x, acts[i].init, nodes[x].value))
  }

  lemma AsMadeStep(w: World, acts: seq<Action>, n: nat, x: Id, i: nat)
    requires i < n < |acts| && AsMade(w.g.nodes, acts, n, x, i)
    requires Enabled(w, acts[n]) && w.g.freeIds == [] && x != w.g.nextId
    ensures AsMade(Next(w, acts[n]).g.nodes, acts, n + 1, x, i)
  {
    MadeStays(w, acts[n], x, acts[i]);
    if acts[i].MakeSource? {
      LastWriteStep(acts, i, n, x, acts[i].init, w.g.nodes[x].value);
    }
  }

  /**
   In every execution, a node is what the action that made it says, whatever has happened since: a
   slot computes what it was made to compute, an effect has its body, and a source holds the last
   value written to it, or the one it was made with.
   */
  lemma {:induction false} NodesAreAsMade(ws: seq<World>, acts: seq<Action>, n: nat, x: Id, i: nat)
    requires IsExecution(ws, acts) && n <= |acts| && MadeAt(acts, n, x, i)
    ensures MadeBy(ws[n].g.nodes, x, acts[i])
    ensures acts[i].MakeSource? ==> LastWrite(acts, i, n, x, acts[i].init, ws[n].g.nodes[x].value)
    decreases n
  {
    var m := n - 1;
    assert Enabled(ws[m], acts[m]) && ws[n] == Next(ws[m], acts[m]);
    IdsAreMade(ws, acts, m);
    if i == m {
      MakeAdds(ws[m], acts[m]);
    } else {
      NodesAreAsMade(ws, acts, m, x, i);
      MadeIsOrdered(acts, i, m);
      AsMadeStep(ws[m], acts, m, x, i);
    }
  }

  /** How many batches are open after the first `n` actions. */
  function Open(acts: seq<Action>, n: nat): int
    requires n <= |acts|
  {
    if n == 0 then 0
    else Open(acts, n - 1) + if acts[n - 1].BatchEnter? then 1 else if acts[n - 1].BatchExit? then -1 else 0
  }

  /** The batch depth is the number of batches entered and not left. */
  lemma {:induction false} DepthIsOpenBatches(ws: seq<World>, acts: seq<Action>, n: nat)
    requires IsExecution(ws, acts) && n <= |acts|
    ensures ws[n].g.batchDepth == Open(acts, n)
    decreases n
  {
    if n > 0 {
      DepthIsOpenBatches(ws, acts, n - 1);
      assert Enabled(ws[n - 1], acts[n - 1]) && ws[n] == Next(ws[n - 1], acts[n - 1]);
    }
  }

  /**
   A write of the value a source has changes nothing at all. Any other write inside a batch marks the
   cell and queues no walk; outside, it queues one walk from the source's readers.
   */
  lemma WritesQueue(ws: seq<World>, acts: seq<Action>, i: nat, s: Id, v: Value)
    requires IsExecution(ws, acts) && i < |acts| && acts[i] == Set(s, v)
    ensures IsSource(ws[i].g.nodes, s)
    ensures ws[i].g.nodes[s].value == v ==> ws[i + 1] == ws[i]
    ensures ws[i].g.nodes[s].value != v ==>
              && IsSource(ws[i + 1].g.nodes, s) && ws[i + 1].g.nodes[s].value == v
              && (Open(acts, i) > 0 ==> s in ws[i + 1].g.batchedCells && ws[i + 1].walks == ws[i].walks)
              && (Open(acts, i) == 0 ==>
                    ws[i + 1].walks == ws[i].walks + [ws[i].g.nodes[s].dependents]
                    && ws[i + 1].g.batchedCells == ws[i].g.batchedCells)
  {
    assert Enabled(ws[i], acts[i]) && ws[i + 1] == Next(ws[i], acts[i]);
    DepthIsOpenBatches(ws, acts, i);
  }
}
