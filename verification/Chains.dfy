/** Chains of IPLANs: the run loop composed over a second dependency graph. */
module Chains {
  import opened Prelude
  import opened Topo
  import opened Ledgers
  import opened RunLoop
  import opened Steps
  import opened Invariants
  import opened Histories
  import opened Gates
  import opened FreshRuns
  import opened Verdicts
  import TextOrder

  datatype ChainNode = ChainNode(iplanId: string, order: int, dependsOn: seq<string>)

  function ChainGraph(nodes: seq<ChainNode>): Graph {
    if nodes == [] then map[]
    else
      var n := nodes[|nodes| - 1];
      ChainGraph(nodes[..|nodes| - 1])[n.iplanId := Elems(n.dependsOn)]
  }

  function Orders(nodes: seq<ChainNode>): map<string, int> {
    if nodes == [] then map[]
    else
      var n := nodes[|nodes| - 1];
      Orders(nodes[..|nodes| - 1])[n.iplanId := n.order]
  }

  /** The first half of `chain_order`'s sort key (order, id). */
  function ChainRank(nodes: seq<ChainNode>): Rank {
    var orders := Orders(nodes);
    id => if id in orders then orders[id] else 0
  }

  ghost function ChainOrder(nodes: seq<ChainNode>): seq<string> {
    Order(ChainGraph(nodes), ChainRank(nodes))
  }

  /** One host per IPLAN: they share the clock and the id source and differ in the executor. */
  datatype ChainEnv = ChainEnv(iplans: map<string, Manifest>, hostFor: string -> Host, control: nat -> Signal)

  datatype ChainState = ChainState(reconciled: map<string, bool>, subs: map<string, Ledger>, w: World, polls: nat)

  /** `run` raises on an invalid manifest, and the whole chain with it. */
  datatype ChainOutcome = Raised(iplan: string) | Ended(st: ChainState)

  predicate Upstream(reconciled: map<string, bool>, deps: set<string>) {
    forall d :: d in deps ==> d in reconciled && reconciled[d]
  }

  const CHAIN_CFG := Config(0, 0.0)

  /** `run_chain` from position i of its order on. */
  ghost function ChainLoop(env: ChainEnv, g: Graph, order: seq<string>, i: nat, st: ChainState): ChainOutcome
    requires i <= |order| && Elems(order) <= g.Keys
    decreases |order| - i
  {
    if i == |order| then Ended(st)
    else
      var id := order[i];
      assert id in Elems(order);
      var st1 := st.(polls := st.polls + 1);
      if env.control(st.polls) != Go then Ended(st1)
      else if !Upstream(st.reconciled, g[id]) then
        ChainLoop(env, g, order, i + 1, st1.(reconciled := st.reconciled[id := false]))
      else if id !in env.iplans || !ValidIntake(env.iplans[id]) then Raised(id)
      else
        var s := Run(env.hostFor(id), env.iplans[id], st.w, CHAIN_CFG);
        ChainLoop(env, g, order, i + 1,
                  st1.(w := s.w, subs := st.subs[id := s.l],
                       reconciled := st.reconciled[id := s.l.reconciliation.allowed]))
  }

  ghost function RunChain(env: ChainEnv, nodes: seq<ChainNode>, w: World): ChainOutcome {
    OrderIsPermutation(ChainGraph(nodes), ChainRank(nodes));
    ChainLoop(env, ChainGraph(nodes), ChainOrder(nodes), 0, ChainState(map[], map[], w, 0))
  }

  // ---- Chain ledger ------------------------------------------------------------------------------------

  /** The assembled document: each node with its flag, the order, and the verdict, which is also the status. */
  datatype ChainLedger = ChainLedger(rows: seq<(ChainNode, bool)>, completed: bool, order: seq<string>, allowed: bool)

  predicate IsReconciled(reconciled: map<string, bool>, id: string) { id in reconciled && reconciled[id] }

  /** `chain_reconciliation.allowed`. */
  ghost predicate ChainAllowed(nodes: seq<ChainNode>, st: ChainState) {
    forall k :: 0 <= k < |nodes| ==> IsReconciled(st.reconciled, nodes[k].iplanId)
  }

  /** `build_chain_ledger` of these flags. */
  ghost predicate IsChainLedger(nodes: seq<ChainNode>, st: ChainState, c: ChainLedger) {
    && |c.rows| == |nodes|
    && (forall i :: 0 <= i < |nodes| ==> c.rows[i] == (nodes[i], IsReconciled(st.reconciled, nodes[i].iplanId)))
    && c.order == ChainOrder(nodes)
    && (c.allowed <==> ChainAllowed(nodes, st)) && c.completed == c.allowed
  }

  // ---- Graph and order -----------------------------------------------------------------------------

  function IplanIds(nodes: seq<ChainNode>): set<string> {
    set i | 0 <= i < |nodes| :: nodes[i].iplanId
  }

  /** The node at `k` is the one that counts for its id: a later node with the same id would replace it. */
  ghost predicate CountsInChain(nodes: seq<ChainNode>, k: nat) {
    k < |nodes| && forall j :: k < j < |nodes| ==> nodes[j].iplanId != nodes[k].iplanId
  }

  lemma {:induction false} IplanOf(nodes: seq<ChainNode>, id: string) returns (k: nat)
    requires id in IplanIds(nodes)
    ensures CountsInChain(nodes, k) && nodes[k].iplanId == id
  {
    var n := |nodes| - 1;
    if nodes[n].iplanId == id {
      k := n;
    } else {
      assert id in IplanIds(nodes[..n]);
      k := IplanOf(nodes[..n], id);
    }
  }

  lemma {:induction false} ChainKeys(nodes: seq<ChainNode>)
    ensures ChainGraph(nodes).Keys == IplanIds(nodes)
  {
    if nodes != [] {
      var n := |nodes| - 1;
      ChainKeys(nodes[..n]);
      assert IplanIds(nodes) == IplanIds(nodes[..n]) + {nodes[n].iplanId};
    }
  }

  lemma {:induction false} ChainAt(nodes: seq<ChainNode>, k: nat)
    requires CountsInChain(nodes, k)
    ensures var id := nodes[k].iplanId;
      && id in ChainGraph(nodes) && ChainGraph(nodes)[id] == Elems(nodes[k].dependsOn)
      && id in Orders(nodes) && Orders(nodes)[id] == nodes[k].order
  {
    var n := |nodes| - 1;
    if k < n {
      assert nodes[n].iplanId != nodes[k].iplanId && nodes[..n][k] == nodes[k];
      assert CountsInChain(nodes[..n], k);
      ChainAt(nodes[..n], k);
    }
  }

  /** The chain graph and its ranks are those the nodes name: these dependencies, and no others. */
  lemma ChainIsOfNodes(nodes: seq<ChainNode>)
    ensures ChainGraph(nodes).Keys == IplanIds(nodes)
    ensures forall k: nat :: CountsInChain(nodes, k) ==>
              && ChainRank(nodes)(nodes[k].iplanId) == nodes[k].order
              && forall d :: d in ChainGraph(nodes)[nodes[k].iplanId] <==> d in nodes[k].dependsOn
  {
    hide ChainGraph, Orders;
    ChainKeys(nodes);
    forall k: nat | CountsInChain(nodes, k)
      ensures ChainRank(nodes)(nodes[k].iplanId) == nodes[k].order
      ensures forall d :: d in ChainGraph(nodes)[nodes[k].iplanId] <==> d in nodes[k].dependsOn
    {
      ChainAt(nodes, k);
    }
  }

  /** Lower order first, then the smaller id. */
  predicate ComesBefore(a: ChainNode, b: ChainNode) {
    a.order < b.order || (a.order == b.order && TextOrder.Before(a.iplanId, b.iplanId))
  }

  /** Which IPLAN comes next: of those whose dependencies have all come, the one with the least (order, id). */
  lemma NextIplan(nodes: seq<ChainNode>, i: nat, u: nat) returns (k: nat)
    requires i < |ChainOrder(nodes)| && CountsInChain(nodes, u)
    requires var o := ChainOrder(nodes);
      nodes[u].iplanId !in o[..i] && forall d :: d in nodes[u].dependsOn ==> d in o[..i]
    ensures var o := ChainOrder(nodes);
      && CountsInChain(nodes, k) && o[i] == nodes[k].iplanId && (forall d :: d in nodes[k].dependsOn ==> d in o[..i])
      && (o[i] == nodes[u].iplanId || ComesBefore(nodes[k], nodes[u]))
  {
    hide Order, ChainGraph, Orders;
    var g, rank := ChainGraph(nodes), ChainRank(nodes);
    var o := ChainOrder(nodes);
    ChainIsOfNodes(nodes);
    assert g[nodes[u].iplanId] <= Elems(o[..i]);
    NextIsLeast(g, rank, i, nodes[u].iplanId);
    k := IplanOf(nodes, o[i]);
    assert rank(nodes[k].iplanId) == nodes[k].order && rank(nodes[u].iplanId) == nodes[u].order;
  }

  // ---- Safety ------------------------------------------------------------------------------------------

  /** A sub-ledger that came out of a run of this IPLAN. */
  ghost predicate RunOf(env: ChainEnv, id: string, l: Ledger) {
    id in env.iplans && exists w: World :: Run(env.hostFor(id), env.iplans[id], w, CHAIN_CFG).l == l
  }

  ghost predicate VisitedBefore(order: seq<string>, i: nat, id: string)
    requires i <= |order|
  {
    exists j :: 0 <= j < i && order[j] == id
  }

  /** The IPLAN has a ledger of its own, and that ledger reconciled. */
  ghost predicate Done(st: ChainState, id: string) {
    id in st.subs && st.subs[id].reconciliation.allowed && id in st.reconciled && st.reconciled[id]
  }

  /** Every dependency of the k-th IPLAN comes before it and has a reconciled ledger. */
  ghost predicate Earlier(g: Graph, order: seq<string>, k: nat, st: ChainState)
    requires k < |order| && order[k] in g
  {
    forall d :: d in g[order[k]] ==> VisitedBefore(order, k, d) && Done(st, d)
  }

  ghost predicate OnlyVisited(order: seq<string>, i: nat, st: ChainState)
    requires i <= |order|
  {
    forall id :: id in st.reconciled || id in st.subs ==> VisitedBefore(order, i, id)
  }

  ghost predicate FlagsBacked(env: ChainEnv, st: ChainState) {
    && (forall id :: id in st.reconciled && st.reconciled[id] ==> Done(st, id))
    && (forall id :: id in st.subs ==> RunOf(env, id, st.subs[id]))
  }

  ghost predicate UpstreamsEarlier(g: Graph, order: seq<string>, i: nat, st: ChainState)
    requires i <= |order| && Elems(order) <= g.Keys
  {
    forall k :: 0 <= k < i && order[k] in st.subs ==> Earlier(g, order, k, st)
  }

  /** What the chain has done after the first i positions of its order. */
  ghost predicate ChainInv(env: ChainEnv, g: Graph, order: seq<string>, i: nat, st: ChainState)
    requires i <= |order| && Elems(order) <= g.Keys
  {
    OnlyVisited(order, i, st) && FlagsBacked(env, st) && UpstreamsEarlier(g, order, i, st)
  }

  /** How one position changes the chain state. */
  ghost predicate ChainStepped(env: ChainEnv, g: Graph, id: string, st: ChainState, st': ChainState)
    requires id in g
  {
    if !Upstream(st.reconciled, g[id]) then st'.subs == st.subs && st'.reconciled == st.reconciled[id := false]
    else id in st'.subs && RunOf(env, id, st'.subs[id]) && st'.subs == st.subs[id := st'.subs[id]]
         && st'.reconciled == st.reconciled[id := st'.subs[id].reconciliation.allowed]
  }

  lemma NotVisitedYet(order: seq<string>, i: nat)
    requires NoDuplicates(order) && i < |order|
    ensures !VisitedBefore(order, i, order[i]) && VisitedBefore(order, i + 1, order[i])
    ensures forall id :: VisitedBefore(order, i, id) ==> VisitedBefore(order, i + 1, id)
  {
  }

  lemma StepKeepsDone(env: ChainEnv, g: Graph, id: string, st: ChainState, st': ChainState, d: string)
    requires id in g && ChainStepped(env, g, id, st, st') && d != id && Done(st, d)
    ensures Done(st', d)
  {
  }

  lemma StepKeepsFlags(env: ChainEnv, g: Graph, id: string, st: ChainState, st': ChainState)
    requires id in g && ChainStepped(env, g, id, st, st') && FlagsBacked(env, st)
    ensures FlagsBacked(env, st')
  {
    hide RunOf;
    forall d | d in st'.reconciled && st'.reconciled[d] ensures Done(st', d) {
      if d != id { StepKeepsDone(env, g, id, st, st', d); }
    }
  }

  lemma StepKeepsEarlier(env: ChainEnv, g: Graph, order: seq<string>, i: nat, st: ChainState, st': ChainState, k: nat)
    requires NoDuplicates(order) && Elems(order) <= g.Keys && k <= i < |order| && order[i] in g && order[k] in g
    requires ChainInv(env, g, order, i, st) && ChainStepped(env, g, order[i], st, st') && order[k] in st'.subs
    ensures Earlier(g, order, k, st')
  {
    hide RunOf;
    NotVisitedYet(order, i);
    var id := order[i];
    if k < i {
      assert order[k] != id && Earlier(g, order, k, st);
      forall d | d in g[order[k]] ensures Done(st', d) {
        assert VisitedBefore(order, k, d) && !VisitedBefore(order, i, id);
        StepKeepsDone(env, g, id, st, st', d);
      }
    } else {
      assert Upstream(st.reconciled, g[id]);
      forall d | d in g[id] ensures VisitedBefore(order, i, d) && Done(st', d) {
        assert d in st.reconciled && st.reconciled[d] && VisitedBefore(order, i, d);
        StepKeepsDone(env, g, id, st, st', d);
      }
    }
  }

  lemma ChainStep(env: ChainEnv, g: Graph, order: seq<string>, i: nat, st: ChainState, st': ChainState)
    requires NoDuplicates(order) && Elems(order) <= g.Keys && i < |order| && order[i] in g
    requires ChainInv(env, g, order, i, st) && ChainStepped(env, g, order[i], st, st')
    ensures ChainInv(env, g, order, i + 1, st')
  {
    hide RunOf, Earlier, Done;
    NotVisitedYet(order, i);
    StepKeepsFlags(env, g, order[i], st, st');
    assert forall k :: 0 <= k < |order| ==> order[k] in Elems(order);
    forall k | 0 <= k < i + 1 && order[k] in st'.subs ensures Earlier(g, order, k, st') {
      StepKeepsEarlier(env, g, order, i, st, st', k);
    }
  }

  lemma {:induction false} ChainKeepsInv(env: ChainEnv, g: Graph, order: seq<string>, i: nat, st: ChainState)
    returns (n: nat)
    requires NoDuplicates(order) && Elems(order) <= g.Keys && i <= |order| && ChainInv(env, g, order, i, st)
    ensures var r := ChainLoop(env, g, order, i, st);
            i <= n <= |order| && (r.Ended? ==> ChainInv(env, g, order, n, r.st))
    decreases |order| - i
  {
    n := i;
    hide Run, ChainInv, RunOf, ValidIntake, ChainStepped;
    PollsKeepChainInv(env, g, order, i, st);
    if i < |order| && env.control(st.polls) == Go {
      var id := order[i];
      assert id in Elems(order);
      var st1 := st.(polls := st.polls + 1);
      if !Upstream(st.reconciled, g[id]) {
        var st' := st1.(reconciled := st.reconciled[id := false]);
        SkipSteps(env, g, id, st);
        ChainStep(env, g, order, i, st, st');
        n := ChainKeepsInv(env, g, order, i + 1, st');
      } else if id in env.iplans && ValidIntake(env.iplans[id]) {
        var s := Run(env.hostFor(id), env.iplans[id], st.w, CHAIN_CFG);
        var st' := st1.(w := s.w, subs := st.subs[id := s.l],
                        reconciled := st.reconciled[id := s.l.reconciliation.allowed]);
        RunSteps(env, g, id, st, s);
        ChainStep(env, g, order, i, st, st');
        n := ChainKeepsInv(env, g, order, i + 1, st');
      }
    }
  }

  lemma SkipSteps(env: ChainEnv, g: Graph, id: string, st: ChainState)
    requires id in g && !Upstream(st.reconciled, g[id])
    ensures ChainStepped(env, g, id, st, st.(polls := st.polls + 1, reconciled := st.reconciled[id := false]))
  {
  }

  lemma RunSteps(env: ChainEnv, g: Graph, id: string, st: ChainState, s: State)
    requires id in g && Upstream(st.reconciled, g[id]) && id in env.iplans
    requires s == Run(env.hostFor(id), env.iplans[id], st.w, CHAIN_CFG)
    ensures ChainStepped(env, g, id, st, st.(polls := st.polls + 1, w := s.w, subs := st.subs[id := s.l],
                                             reconciled := st.reconciled[id := s.l.reconciliation.allowed]))
  {
    hide Run;
    RunIsRunOf(env, id, st.w);
  }

  lemma RunIsRunOf(env: ChainEnv, id: string, w: World)
    requires id in env.iplans
    ensures RunOf(env, id, Run(env.hostFor(id), env.iplans[id], w, CHAIN_CFG).l)
  {
    hide Run;
  }

  lemma PollsKeepChainInv(env: ChainEnv, g: Graph, order: seq<string>, i: nat, st: ChainState)
    requires i <= |order| && Elems(order) <= g.Keys && ChainInv(env, g, order, i, st)
    ensures ChainInv(env, g, order, i, st.(polls := st.polls + 1))
  {
    hide RunOf;
    var st' := st.(polls := st.polls + 1);
    assert forall d :: Done(st, d) <==> Done(st', d);
    assert forall k :: 0 <= k < |order| ==> order[k] in Elems(order);
    forall k | 0 <= k < i && order[k] in st'.subs ensures Earlier(g, order, k, st') {
      assert Earlier(g, order, k, st);
    }
  }

  /** In a fresh run `allowed` needs no assumption on ids to mean that everything completed. */
  lemma FreshAllowedMeansDone(host: Host, m: Manifest, w: World, cfg: Config)
    requires ClockOk(host) && Run(host, m, w, cfg).l.reconciliation.allowed
    ensures var l := Run(host, m, w, cfg).l;
      AllCompleted(l) && l.blockers == [] && l.tasks.Keys == TaskIds(m.tasks)
  {
    hide Run, RowsOf, EvidenceMatches, PathsMatch, Once;
    GraphIsOfNodes(m.tasks);
    var todo := RunHasFacts(host, m, w, cfg);
    var s := Run(host, m, w, cfg);
    forall t | t in s.l.tasks ensures s.l.tasks[t].status == Completed {
      PendingOrVisited(s, todo, t);
      assert t !in PendingSet(s.l.tasks);
    }
  }

  /** A sub-ledger exists only for an IPLAN whose upstreams all come earlier in the order and reconciled. */
  lemma SubLedgerNeedsUpstreams(env: ChainEnv, nodes: seq<ChainNode>, w: World, k: nat, d: string)
    requires RunChain(env, nodes, w).Ended? && CountsInChain(nodes, k) && d in nodes[k].dependsOn
    requires nodes[k].iplanId in RunChain(env, nodes, w).st.subs
    ensures var st, o := RunChain(env, nodes, w).st, ChainOrder(nodes);
      && d in st.subs && st.subs[d].reconciliation.allowed
      && exists i, j :: 0 <= j < i < |o| && o[j] == d && o[i] == nodes[k].iplanId
  {
    hide RunOf, Order, ChainGraph;
    var g, order := ChainGraph(nodes), ChainOrder(nodes);
    ChainIsOfNodes(nodes);
    OrderIsPermutation(g, ChainRank(nodes));
    var n := ChainKeepsInv(env, g, order, 0, ChainState(map[], map[], w, 0));
    var st := RunChain(env, nodes, w).st;
    assert VisitedBefore(order, n, nodes[k].iplanId);
    var i :| 0 <= i < n && order[i] == nodes[k].iplanId;
    assert Earlier(g, order, i, st) && VisitedBefore(order, i, d) && Done(st, d);
    var j :| 0 <= j < i && order[j] == d;
  }

  /** The order lists each id once, and each id behind everything its node depends on. */
  ghost predicate DependencyOrder(nodes: seq<ChainNode>, o: seq<string>) {
    && NoDuplicates(o) && Elems(o) == IplanIds(nodes)
    && forall i, k: nat, d ::
         0 <= i < |o| && CountsInChain(nodes, k) && o[i] == nodes[k].iplanId && d in nodes[k].dependsOn ==> d in o[..i]
  }

  lemma TopologicalByNodes(nodes: seq<ChainNode>, o: seq<string>)
    requires IsTopological(ChainGraph(nodes), o)
    ensures DependencyOrder(nodes, o)
  {
    hide ChainGraph, Orders;
    ChainIsOfNodes(nodes);
    forall i, k: nat, d |
      0 <= i < |o| && CountsInChain(nodes, k) && o[i] == nodes[k].iplanId && d in nodes[k].dependsOn
      ensures d in o[..i]
    {
      assert d in ChainGraph(nodes)[o[i]];
      assert d in Elems(o[..i]);
    }
  }

  /**
   * A reconciled chain is acyclic with every dependency resolved, its execution order puts every IPLAN behind all it
   * depends on, and each was run to the end: all its tasks completed, no blocker open.
   */
  lemma AllowedChainIsSound(env: ChainEnv, nodes: seq<ChainNode>, w: World)
    requires forall id :: ClockOk(env.hostFor(id))
    requires RunChain(env, nodes, w).Ended? && ChainAllowed(nodes, RunChain(env, nodes, w).st)
    ensures Acyclic(ChainGraph(nodes)) && DependencyOrder(nodes, ChainOrder(nodes))
    ensures forall k :: 0 <= k < |nodes| ==> RunToEnd(env, RunChain(env, nodes, w).st, nodes[k].iplanId)
  {
    hide Order, Run, Grounded, RunOf, ChainLoop, ChainInv, RunToEnd, IsTopological, ChainGraph, DependencyOrder;
    var g, order := ChainGraph(nodes), ChainOrder(nodes);
    ChainIsOfNodes(nodes);
    OrderIsPermutation(g, ChainRank(nodes));
    StartIsInv(env, g, order, w);
    var n := ChainKeepsInv(env, g, order, 0, ChainState(map[], map[], w, 0));
    var st := RunChain(env, nodes, w).st;
    forall id | id in g ensures id in st.reconciled && st.reconciled[id] {
      var k := IplanOf(nodes, id);
      assert IsReconciled(st.reconciled, nodes[k].iplanId);
    }
    AllReconciledIsTopological(env, g, order, n, st);
    TopologicalIffAcyclic(g, ChainRank(nodes));
    TopologicalByNodes(nodes, order);
    forall k | 0 <= k < |nodes| ensures RunToEnd(env, st, nodes[k].iplanId) {
      assert nodes[k].iplanId in g;
      ReconciledRanToEnd(env, g, order, n, st, nodes[k].iplanId);
    }
  }

  lemma StartIsInv(env: ChainEnv, g: Graph, order: seq<string>, w: World)
    requires Elems(order) <= g.Keys
    ensures ChainInv(env, g, order, 0, ChainState(map[], map[], w, 0))
  {
  }

  /** The IPLAN was run, and run to the end: its ledger has all its tasks, all completed, and no open blocker. */
  ghost predicate RunToEnd(env: ChainEnv, st: ChainState, id: string) {
    && id in st.subs && id in env.iplans && st.subs[id].reconciliation.allowed
    && AllCompleted(st.subs[id]) && st.subs[id].blockers == []
    && st.subs[id].tasks.Keys == TaskIds(env.iplans[id].tasks)
  }

  lemma ReconciledRanToEnd(env: ChainEnv, g: Graph, order: seq<string>, n: nat, st: ChainState, id: string)
    requires n <= |order| && Elems(order) <= g.Keys && ChainInv(env, g, order, n, st) && id in st.reconciled
    requires st.reconciled[id]
    requires ClockOk(env.hostFor(id))
    ensures RunToEnd(env, st, id)
  {
    hide Run;
    assert Done(st, id);
    RunOfIsDone(env, id, st.subs[id]);
  }

  /** The i-th IPLAN has a ledger of its own, so all its dependencies come earlier. */
  lemma ReconciledComesLate(env: ChainEnv, g: Graph, order: seq<string>, n: nat, st: ChainState, i: nat)
    requires NoDuplicates(order) && Elems(order) == g.Keys && n <= |order| && ChainInv(env, g, order, n, st)
    requires i < |order| && order[i] in g && order[i] in st.reconciled && st.reconciled[order[i]]
    ensures forall d :: d in g[order[i]] ==> VisitedBefore(order, i, d)
  {
    hide RunOf;
    assert Done(st, order[i]) && VisitedBefore(order, n, order[i]);
    var k :| 0 <= k < n && order[k] == order[i];
    assert k == i;
    assert Earlier(g, order, i, st);
  }

  lemma AllReconciledIsTopological(env: ChainEnv, g: Graph, order: seq<string>, n: nat, st: ChainState)
    requires NoDuplicates(order) && Elems(order) == g.Keys && n <= |order| && ChainInv(env, g, order, n, st)
    requires forall id :: id in g ==> id in st.reconciled && st.reconciled[id]
    ensures IsTopological(g, order)
  {
    hide ChainInv;
    forall i | 0 <= i < |order| ensures order[i] in g && g[order[i]] <= Elems(order[..i]) {
      assert order[i] in Elems(order);
      ReconciledComesLate(env, g, order, n, st, i);
      forall d | d in g[order[i]] ensures d in Elems(order[..i]) {
        var j :| 0 <= j < i && order[j] == d;
        assert order[..i][j] == d;
      }
    }
  }

  lemma RunOfIsDone(env: ChainEnv, id: string, l: Ledger)
    requires RunOf(env, id, l) && l.reconciliation.allowed && ClockOk(env.hostFor(id))
    ensures AllCompleted(l) && l.blockers == [] && l.tasks.Keys == TaskIds(env.iplans[id].tasks)
  {
    hide Run;
    var w0: World :| Run(env.hostFor(id), env.iplans[id], w0, CHAIN_CFG).l == l;
    FreshAllowedMeansDone(env.hostFor(id), env.iplans[id], w0, CHAIN_CFG);
  }
}
