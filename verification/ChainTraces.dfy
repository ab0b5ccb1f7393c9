/** What a chain did, position by position: which IPLANs ran, from which state of the shared clock and ids. */
module ChainTraces {
  import opened Prelude
  import opened Topo
  import opened Ledgers
  import opened RunLoop
  import opened Gates
  import opened Chains

  /** All of `deps` come before position i, and reconciled. */
  ghost predicate UpstreamsDone(order: seq<string>, i: nat, deps: set<string>, st: ChainState)
    requires i <= |order|
  {
    forall d :: d in deps ==> VisitedBefore(order, i, d) && IsReconciled(st.reconciled, d)
  }

  /**
   * The turn at position i took the world from w to w': with its upstreams done the IPLAN is valid, was run from w,
   * and its flag is its ledger's verdict; otherwise it has no ledger and counts as not reconciled.
   */
  ghost predicate TurnAt(env: ChainEnv, order: seq<string>, i: nat, deps: set<string>, st: ChainState, w: World,
                         w': World)
    requires i < |order|
  {
    var id := order[i];
    if UpstreamsDone(order, i, deps, st) then
      && id in env.iplans && ValidIntake(env.iplans[id]) && id in st.subs
      && Run(env.hostFor(id), env.iplans[id], w, Config(0, 0.0)) == State(st.subs[id], w')
      && (IsReconciled(st.reconciled, id) <==> st.subs[id].reconciliation.allowed)
    else
      id !in st.subs && !IsReconciled(st.reconciled, id) && w' == w
  }

  /** The first i turns, one after another on one world. */
  ghost predicate TurnsTo(env: ChainEnv, g: Graph, order: seq<string>, i: nat, st: ChainState, worlds: seq<World>)
    requires i <= |order| && Elems(order) <= g.Keys
  {
    && |worlds| == i + 1 && worlds[i] == st.w && OnlyVisited(order, i, st)
    && forall j :: 0 <= j < i ==> TurnOn(env, g, order, j, st, worlds[j], worlds[j + 1])
  }

  ghost predicate TurnOn(env: ChainEnv, g: Graph, order: seq<string>, j: nat, st: ChainState, w: World, w': World)
    requires j < |order| && Elems(order) <= g.Keys
  {
    assert order[j] in Elems(order);
    TurnAt(env, order, j, g[order[j]], st, w, w')
  }

  /** A turn for another id changes nothing an earlier turn is about. */
  lemma LaterTurnsSpare(env: ChainEnv, order: seq<string>, i: nat, j: nat, deps: set<string>, st: ChainState,
                        st': ChainState, w: World, w': World)
    requires NoDuplicates(order) && j < i < |order| && OnlyVisited(order, i, st)
    requires forall id :: id != order[i] ==>
               (id in st'.subs <==> id in st.subs) && (id in st.subs ==> st'.subs[id] == st.subs[id])
               && (IsReconciled(st'.reconciled, id) <==> IsReconciled(st.reconciled, id))
    requires TurnAt(env, order, j, deps, st, w, w')
    ensures TurnAt(env, order, j, deps, st', w, w')
  {
    hide Run, ValidIntake;
    assert !VisitedBefore(order, j, order[i]);
    assert UpstreamsDone(order, j, deps, st') <==> UpstreamsDone(order, j, deps, st);
  }

  /** The flags the loop tests are the upstreams seen so far. */
  lemma UpstreamMeans(order: seq<string>, i: nat, deps: set<string>, st: ChainState)
    requires i <= |order| && OnlyVisited(order, i, st)
    ensures Upstream(st.reconciled, deps) <==> UpstreamsDone(order, i, deps, st)
  {
  }

  /** What one position does to subs and flags: it decides its own id and no other. */
  ghost predicate Decides(env: ChainEnv, order: seq<string>, i: nat, deps: set<string>, st: ChainState, st': ChainState)
    requires i < |order|
  {
    var id := order[i];
    if Upstream(st.reconciled, deps) then
      && id in env.iplans && ValidIntake(env.iplans[id]) && id in st'.subs
      && Run(env.hostFor(id), env.iplans[id], st.w, CHAIN_CFG) == State(st'.subs[id], st'.w)
      && st'.subs == st.subs[id := st'.subs[id]]
      && st'.reconciled == st.reconciled[id := st'.subs[id].reconciliation.allowed]
    else
      st'.subs == st.subs && st'.reconciled == st.reconciled[id := false] && st'.w == st.w
  }

  lemma NewTurn(env: ChainEnv, order: seq<string>, i: nat, deps: set<string>, st: ChainState, st': ChainState)
    requires NoDuplicates(order) && i < |order| && OnlyVisited(order, i, st) && Decides(env, order, i, deps, st, st')
    ensures TurnAt(env, order, i, deps, st', st.w, st'.w) && OnlyVisited(order, i + 1, st')
    ensures forall id :: id != order[i] ==>
              (id in st'.subs <==> id in st.subs) && (id in st.subs ==> st'.subs[id] == st.subs[id])
              && (IsReconciled(st'.reconciled, id) <==> IsReconciled(st.reconciled, id))
  {
    hide Run, ValidIntake;
    NotVisitedYet(order, i);
    UpstreamMeans(order, i, deps, st);
    assert UpstreamsDone(order, i, deps, st') <==> UpstreamsDone(order, i, deps, st);
  }

  lemma OneMoreTurn(env: ChainEnv, g: Graph, order: seq<string>, i: nat, st: ChainState, st': ChainState,
                    worlds: seq<World>)
    requires NoDuplicates(order) && i < |order| && Elems(order) <= g.Keys && TurnsTo(env, g, order, i, st, worlds)
    requires order[i] in g && Decides(env, order, i, g[order[i]], st, st')
    ensures TurnsTo(env, g, order, i + 1, st', worlds + [st'.w])
  {
    hide TurnAt, Decides, OnlyVisited;
    var all := worlds + [st'.w];
    NewTurn(env, order, i, g[order[i]], st, st');
    forall j | 0 <= j < i + 1 ensures TurnOn(env, g, order, j, st', all[j], all[j + 1]) {
      if j < i {
        assert TurnOn(env, g, order, j, st, worlds[j], worlds[j + 1]);
        assert order[j] in Elems(order);
        LaterTurnsSpare(env, order, i, j, g[order[j]], st, st', worlds[j], worlds[j + 1]);
      }
    }
  }

  lemma PollsDoNotMatter(env: ChainEnv, g: Graph, order: seq<string>, i: nat, st: ChainState, polls: nat,
                         worlds: seq<World>)
    requires i <= |order| && Elems(order) <= g.Keys && TurnsTo(env, g, order, i, st, worlds)
    ensures TurnsTo(env, g, order, i, st.(polls := polls), worlds)
  {
    hide Run, ValidIntake;
    var st' := st.(polls := polls);
    forall j | 0 <= j < i ensures TurnOn(env, g, order, j, st', worlds[j], worlds[j + 1]) {
      assert TurnOn(env, g, order, j, st, worlds[j], worlds[j + 1]);
      assert order[j] in Elems(order);
      assert UpstreamsDone(order, j, g[order[j]], st') <==> UpstreamsDone(order, j, g[order[j]], st);
    }
  }

  /** The operator let positions `from` to n go on; if the chain broke off at n, it was the operator who stopped it. */
  ghost predicate StoppedAt(env: ChainEnv, order: seq<string>, from: nat, n: nat, polls: nat) {
    && from <= n <= |order|
    && (forall j: nat :: from <= j < n ==> env.control(j) == Go)
    && (if n < |order| then env.control(n) != Go && polls == n + 1 else polls == n)
  }

  lemma {:induction false} ChainTurns(env: ChainEnv, g: Graph, order: seq<string>, i: nat, st: ChainState,
                                      worlds: seq<World>)
    returns (n: nat, all: seq<World>)
    requires NoDuplicates(order) && i <= |order| && Elems(order) <= g.Keys && st.polls == i
    requires TurnsTo(env, g, order, i, st, worlds) && worlds != []
    ensures var r := ChainLoop(env, g, order, i, st);
      && (r.Ended? ==> StoppedAt(env, order, i, n, r.st.polls) && TurnsTo(env, g, order, n, r.st, all)
                       && all != [] && all[0] == worlds[0])
      && (r.Raised? ==> r.iplan in Elems(order) && (r.iplan in env.iplans ==> !ValidIntake(env.iplans[r.iplan])))
    decreases |order| - i
  {
    hide Run, ValidIntake, TurnsTo, OnlyVisited;
    n, all := i, worlds;
    if i < |order| {
      var id := order[i];
      assert id in Elems(order);
      var st1 := st.(polls := st.polls + 1);
      if env.control(i) != Go {
        PollsDoNotMatter(env, g, order, i, st, i + 1, worlds);
      } else if !Upstream(st.reconciled, g[id]) {
        var st' := st1.(reconciled := st.reconciled[id := false]);
        OneMoreTurn(env, g, order, i, st, st', worlds);
        n, all := ChainTurns(env, g, order, i + 1, st', worlds + [st'.w]);
      } else if id in env.iplans && ValidIntake(env.iplans[id]) {
        var s := Run(env.hostFor(id), env.iplans[id], st.w, CHAIN_CFG);
        var st' := st1.(w := s.w, subs := st.subs[id := s.l],
                        reconciled := st.reconciled[id := s.l.reconciliation.allowed]);
        OneMoreTurn(env, g, order, i, st, st', worlds);
        n, all := ChainTurns(env, g, order, i + 1, st', worlds + [st'.w]);
      }
    }
  }

  /**
   * A chain that ends has taken its turns one by one in chain order until the operator stopped it. At each turn the
   * IPLAN is run, from the world the turn before left, if and only if everything its node depends on comes earlier
   * and reconciled; and nothing else has a ledger or a flag. A chain raises only over a missing or invalid manifest.
   */
  lemma ChainIsExact(env: ChainEnv, nodes: seq<ChainNode>, w: World) returns (n: nat, worlds: seq<World>)
    ensures var o := ChainOrder(nodes);
      var r := RunChain(env, nodes, w);
      && (r.Ended? ==>
            && StoppedAt(env, o, 0, n, r.st.polls) && |worlds| == n + 1 && worlds[0] == w && worlds[n] == r.st.w
            && (forall id :: id in r.st.reconciled || id in r.st.subs ==> id in o[..n])
            && forall i, k: nat :: 0 <= i < n && CountsInChain(nodes, k) && o[i] == nodes[k].iplanId ==>
                 TurnAt(env, o, i, Elems(nodes[k].dependsOn), r.st, worlds[i], worlds[i + 1]))
      && (r.Raised? ==> r.iplan in IplanIds(nodes) && (r.iplan in env.iplans ==> !ValidIntake(env.iplans[r.iplan])))
  {
    hide Order, ChainGraph, Orders, ChainLoop, TurnAt, StoppedAt, ValidIntake, Run;
    var g, o := ChainGraph(nodes), ChainOrder(nodes);
    ChainIsOfNodes(nodes);
    OrderIsPermutation(g, ChainRank(nodes));
    n, worlds := ChainTurns(env, g, o, 0, ChainState(map[], map[], w, 0), [w]);
    var r := RunChain(env, nodes, w);
    if r.Ended? {
      StopsInside(env, o, n, r.st.polls);
      forall id | id in r.st.reconciled || id in r.st.subs ensures id in o[..n] {
        var j :| 0 <= j < n && o[j] == id;
        assert o[..n][j] == id;
      }
      forall i, k: nat | 0 <= i < n && CountsInChain(nodes, k) && o[i] == nodes[k].iplanId
        ensures TurnAt(env, o, i, Elems(nodes[k].dependsOn), r.st, worlds[i], worlds[i + 1])
      {
        assert TurnOn(env, g, o, i, r.st, worlds[i], worlds[i + 1]);
        assert g[o[i]] == Elems(nodes[k].dependsOn);
      }
    }
  }

  lemma StopsInside(env: ChainEnv, order: seq<string>, n: nat, polls: nat)
    requires StoppedAt(env, order, 0, n, polls)
    ensures n <= |order|
  {
  }
}
