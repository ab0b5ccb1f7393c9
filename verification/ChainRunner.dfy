/** `run_chain` in the imperative form of the source. */
module ChainRunner {
  import opened Prelude
  import opened HashChain
  import opened Topo
  import opened Ledgers
  import opened RunLoop
  import opened Gates
  import opened Chains
  import Engine
  import Orchestrator

  /** The run of one IPLAN on the shared clock and ids; None when its manifest is refused. */
  method RunOne(h: Hash, host: Host, m: Manifest, w: World, gate: Option<seq<GateRule>>) returns (s: Option<State>)
    ensures s == if ValidIntake(m) then Some(Run(host, m, w, CHAIN_CFG)) else None
  {
    hide Run, ValidIntake, GateReport;
    var port := new Engine.Port(host, w);
    var ledger, result := Orchestrator.RunManifest(h, m, port, CHAIN_CFG, gate);
    if ledger == null { return None; }
    return Some(State(ledger.Value(), port.w));
  }

  /** Visit the IPLANs in chain order; each one whose upstreams reconciled gets a run and a ledger of its own. */
  method VisitChain(h: Hash, env: ChainEnv, nodes: seq<ChainNode>, w: World, gate: Option<seq<GateRule>>)
    returns (outcome: ChainOutcome)
    ensures outcome == RunChain(env, nodes, w)
  {
    hide Order, ChainGraph, ChainRank, ChainLoop, Run, ValidIntake, GateReport, Upstream, Fits, GraphOf;
    var g := ChainGraph(nodes);
    var order := ComputeOrder(g, ChainRank(nodes));
    OrderIsPermutation(g, ChainRank(nodes));
    var st := ChainState(map[], map[], w, 0);
    for i := 0 to |order|
      invariant ChainLoop(env, g, order, i, st) == RunChain(env, nodes, w)
    {
      var id := order[i];
      assert id in Elems(order);
      ChainTurn(env, g, order, i, st);
      var signal := env.control(st.polls);
      st := st.(polls := st.polls + 1);
      if signal != Go { return Ended(st); }
      if !Upstream(st.reconciled, g[id]) {
        st := st.(reconciled := st.reconciled[id := false]);
        continue;
      }
      if id !in env.iplans { return Raised(id); }
      var sub := RunOne(h, env.hostFor(id), env.iplans[id], st.w, gate);
      if sub.None? { return Raised(id); }
      var s := sub.value;
      st := st.(w := s.w, subs := st.subs[id := s.l], reconciled := st.reconciled[id := s.l.reconciliation.allowed]);
    }
    ChainEnds(env, g, order, st);
    return Ended(st);
  }

  /** `build_chain_ledger`. */
  method BuildChainLedger(nodes: seq<ChainNode>, st: ChainState) returns (c: ChainLedger)
    ensures IsChainLedger(nodes, st, c)
  {
    var rows := [];
    var allowed := true;
    for i := 0 to |nodes|
      invariant |rows| == i
      invariant forall k :: 0 <= k < i ==> rows[k] == (nodes[k], IsReconciled(st.reconciled, nodes[k].iplanId))
      invariant allowed <==> forall k :: 0 <= k < i ==> IsReconciled(st.reconciled, nodes[k].iplanId)
    {
      var flag := IsReconciled(st.reconciled, nodes[i].iplanId);
      rows := rows + [(nodes[i], flag)];
      allowed := allowed && flag;
    }
    var order := ComputeOrder(ChainGraph(nodes), ChainRank(nodes));
    c := ChainLedger(rows, allowed, order, allowed);
  }

  /** `run_chain`: visit the chain, then assemble its ledger; None when a run raised. */
  method RunChainInPlace(h: Hash, env: ChainEnv, nodes: seq<ChainNode>, w: World, gate: Option<seq<GateRule>>)
    returns (outcome: ChainOutcome, ledger: Option<ChainLedger>)
    ensures outcome == RunChain(env, nodes, w)
    ensures outcome.Raised? <==> ledger.None?
    ensures outcome.Ended? ==> IsChainLedger(nodes, outcome.st, ledger.value)
  {
    hide RunChain, IsChainLedger;
    outcome := VisitChain(h, env, nodes, w, gate);
    if outcome.Raised? { return outcome, None; }
    var c := BuildChainLedger(nodes, outcome.st);
    return outcome, Some(c);
  }

  lemma ChainEnds(env: ChainEnv, g: Graph, order: seq<string>, st: ChainState)
    requires Elems(order) <= g.Keys
    ensures ChainLoop(env, g, order, |order|, st) == Ended(st)
  {
  }

  /** One position of the chain, unfolded. */
  lemma ChainTurn(env: ChainEnv, g: Graph, order: seq<string>, i: nat, st: ChainState)
    requires Elems(order) <= g.Keys && i < |order|
    ensures order[i] in g
    ensures var id, st1 := order[i], st.(polls := st.polls + 1);
      ChainLoop(env, g, order, i, st) ==
      if env.control(st.polls) != Go then Ended(st1)
      else if !Upstream(st.reconciled, g[id]) then
        ChainLoop(env, g, order, i + 1, st1.(reconciled := st.reconciled[id := false]))
      else if id !in env.iplans || !ValidIntake(env.iplans[id]) then Raised(id)
      else
        var s := Run(env.hostFor(id), env.iplans[id], st.w, CHAIN_CFG);
        ChainLoop(env, g, order, i + 1,
                  st1.(w := s.w, subs := st.subs[id := s.l],
                       reconciled := st.reconciled[id := s.l.reconciliation.allowed]))
  {
    hide Run, ValidIntake;
    assert order[i] in Elems(order);
  }
}
