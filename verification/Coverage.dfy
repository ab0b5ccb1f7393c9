/**
 * When a reconciled ledger is really done. A blocked task is covered by its open blockers; only an override can take
 * that cover away, and it can be told beforehand which ones do.
 */
module Coverage {
  import opened Prelude
  import opened HashChain
  import opened Topo
  import opened Ledgers
  import opened RunLoop
  import opened Steps
  import opened Invariants
  import opened Histories

  // ---- One override --------------------------------------------------------------------------------

  /** The override would reopen t: the first blocker with this id is about it. */
  predicate Reopens(blockers: seq<Blocker>, id: string, t: string) {
    var i := FindBlocker(blockers, id);
    i < |blockers| && blockers[i].taskId == t
  }

  /** Some open blocker of t survives an override of this id. */
  predicate KeepsBlocker(blockers: seq<Blocker>, id: string, t: string) {
    exists i :: 0 <= i < |blockers| && blockers[i].taskId == t && blockers[i].blockerId != id
  }

  /** The guard, readable before the call: every blocked task that is not reopened keeps a blocker of another id. */
  predicate SparesOthers(l: Ledger, id: string) {
    forall t :: t in l.tasks && l.tasks[t].status == Blocked && !Reopens(l.blockers, id, t) ==>
          KeepsBlocker(l.blockers, id, t)
  }

  lemma KeptBlocker(blockers: seq<Blocker>, id: string, t: string)
    ensures HasBlocker(WithoutBlocker(blockers, id), t) <==> KeepsBlocker(blockers, id, t)
  {
    var kept := WithoutBlocker(blockers, id);
    if KeepsBlocker(blockers, id, t) {
      var i :| 0 <= i < |blockers| && blockers[i].taskId == t && blockers[i].blockerId != id;
      assert blockers[i] in kept;
      var k :| 0 <= k < |kept| && kept[k] == blockers[i];
    }
    if HasBlocker(kept, t) {
      var k :| 0 <= k < |kept| && kept[k].taskId == t;
      assert kept[k] in blockers;
    }
  }

  /** An override leaves every blocked task covered if and only if it spares the others. */
  lemma OverrideKeepsCoveredIff(l: Ledger, id: string, actor: string, at: string)
    requires Covered(l)
    ensures Covered(Resolve(l, id, OVERRIDE, actor, at)) <==> SparesOthers(l, id)
  {
    var l' := Resolve(l, id, OVERRIDE, actor, at);
    hide HasBlocker, KeepsBlocker, WithoutBlocker, FindBlocker;
    forall t ensures HasBlocker(WithoutBlocker(l.blockers, id), t) <==> KeepsBlocker(l.blockers, id, t) {
      KeptBlocker(l.blockers, id, t);
    }
    if FindBlocker(l.blockers, id) >= |l.blockers| {
      NoMatchKeeps(l.blockers, id);
    }
  }

  lemma NoMatchKeeps(blockers: seq<Blocker>, id: string)
    requires FindBlocker(blockers, id) >= |blockers|
    ensures forall t :: KeepsBlocker(blockers, id, t) <==> HasBlocker(blockers, t)
  {
  }

  // ---- One operation -------------------------------------------------------------------------------

  lemma OpenedKeepsCovered(host: Host, s: State, s': State, t: string)
    requires Covered(s.l) && Frame(s, s', t) && Opened(host, s, s', t)
    ensures Covered(s'.l)
  {
    var B, B' := s.l.blockers, s'.l.blockers;
    forall u | u in s'.l.tasks && s'.l.tasks[u].status == Blocked ensures HasBlocker(B', u) {
      if u == t {
        assert B'[|B|].taskId == t;
      } else {
        var i :| 0 <= i < |B| && B[i].taskId == u;
        assert B'[i].taskId == u;
      }
    }
  }

  lemma AcceptedKeepsCovered(s: State, s': State, t: string, r: ExecResult, n: nat)
    requires Covered(s.l) && Accepted(s, s', t, r, n)
    ensures Covered(s'.l)
  {
    forall u | u in s'.l.tasks && s'.l.tasks[u].status == Blocked ensures HasBlocker(s'.l.blockers, u) {
      assert u != t && s.l.tasks[u].status == Blocked;
    }
  }

  lemma TurnKeepsCovered(host: Host, g: Graph, s: State, s': State, t: string, cfg: Config, stopped: bool)
    requires Fits(g, s) && Covered(s.l) && t in g && Turned(host, g, s, s', t, cfg, stopped)
    ensures Covered(s'.l)
  {
    hide Covered;
    if stopped || s.l.tasks[t].status == Completed {
      SameTasksCovered(s.l, s'.l);
    } else if !(g[t] <= CompletedSet(s.l.tasks)) {
      OpenedKeepsCovered(host, s, s', t);
    } else if AlreadyCommitted(s.l.journal, t) {
      SameTasksCovered(s.l, s'.l);
    } else {
      var w0 :| Executed(host, s, s', t, cfg, w0);
      var e := Retry(host, w0, t, 0, cfg);
      if e.result.success {
        AcceptedKeepsCovered(s, s', t, e.result, e.attempts);
      } else {
        OpenedKeepsCovered(host, s, s', t);
      }
    }
  }

  lemma SameTasksCovered(l: Ledger, l': Ledger)
    requires l'.tasks == l.tasks && l'.blockers == l.blockers
    ensures Covered(l') <==> Covered(l)
  {
  }

  lemma {:induction false} LoopKeepsCovered(host: Host, g: Graph, s: State, order: seq<string>, cfg: Config)
    requires ClockOk(host) && Fits(g, s) && Inv(g, s) && Covered(s.l) && Elems(order) <= g.Keys
    ensures Covered(Loop(host, g, s, order, cfg).0.l)
    decreases |order|
  {
    if order != [] {
      hide Inv, Turned, Visit, Covered;
      InvBasics(g, s);
      assert order[0] in Elems(order) && Elems(order[1..]) <= Elems(order);
      var turn := Visit(host, g, s, order[0], cfg);
      VisitEffect(host, g, s, order[0], cfg);
      TurnKeepsInv(host, g, s, turn.s, order[0], cfg, turn.Stop?);
      TurnKeepsCovered(host, g, s, turn.s, order[0], cfg, turn.Stop?);
      if turn.Next? { LoopKeepsCovered(host, g, turn.s, order[1..], cfg); }
    }
  }

  /** A run or resume of a covered ledger: still covered, and `allowed` if and only if everything is done. */
  lemma DriveIsExact(host: Host, g: Graph, s: State, cfg: Config)
    requires ClockOk(host) && Fits(g, s) && Inv(g, s) && Covered(s.l)
    ensures var l' := Drive(host, g, s, cfg).l;
      Covered(l') && (l'.reconciliation.allowed <==> AllCompleted(l') && l'.blockers == [])
  {
    hide Inv, Loop, Order, Covered, AllCompleted;
    OrderIsPermutation(g, DefaultRank);
    LoopKeepsCovered(host, g, s, TopoOrder(g), cfg);
    var r := Loop(host, g, s, TopoOrder(g), cfg);
    var l1 := r.0.l.(runState := r.1);
    SameTasksCovered(r.0.l, l1);
    SameTasksCovered(l1, Drive(host, g, s, cfg).l);
    ReconcileExact(l1);
    SameTasksDone(l1, Drive(host, g, s, cfg).l);
  }

  lemma SameTasksDone(l: Ledger, l': Ledger)
    requires l'.tasks == l.tasks
    ensures AllCompleted(l') <==> AllCompleted(l)
  {
  }

  /** An override of this id, by an authorized actor. */
  predicate Overrides(op: Op, id: string) {
    op.ResolveOp? && op.authorized && op.decision == OVERRIDE && op.id == id
  }

  /** The operation is no override that takes the last blocker from a task it does not reopen. */
  predicate Spares(l: Ledger, op: Op) {
    op.ResolveOp? && Overrides(op, op.id) ==> SparesOthers(l, op.id)
  }

  lemma ApplyCoveredIff(host: Host, g: Graph, s: State, op: Op)
    requires ClockOk(host) && Fits(g, s) && Inv(g, s) && Covered(s.l)
    ensures Covered(Apply(host, g, s, op).l) <==> Spares(s.l, op)
  {
    hide Inv, Covered, SparesOthers, Drive;
    match op
    case ResumeOp(cfg) =>
      var s1 := s.(l := s.l.(runState := Running));
      SameFactsKeep(g, s, s1);
      SameTasksCovered(s.l, s1.l);
      DriveIsExact(host, g, s1, cfg);
    case ResolveOp(authorized, id, decision, actor, at) =>
      if authorized && decision == OVERRIDE {
        OverrideKeepsCoveredIff(s.l, id, actor, at);
      } else {
        SameTasksCovered(s.l, Apply(host, g, s, op).l);
      }
    case LandOp(_, _, _, _) =>
      SameTasksCovered(s.l, Apply(host, g, s, op).l);
  }

  // ---- Histories -----------------------------------------------------------------------------------

  /** Every override of the sequence spares the others, judged on the ledger it is applied to. */
  ghost predicate Spared(host: Host, g: Graph, s: State, ops: seq<Op>)
    requires Fits(g, s)
  {
    forall k :: 0 <= k < |ops| ==> Spares(ApplyAll(host, g, s, ops[..k]).l, ops[k])
  }

  ghost predicate AlwaysCovered(host: Host, g: Graph, s: State, ops: seq<Op>)
    requires Fits(g, s)
  {
    forall k :: 0 <= k <= |ops| ==> Covered(ApplyAll(host, g, s, ops[..k]).l)
  }

  lemma InvThroughout(host: Host, g: Graph, s: State, ops: seq<Op>)
    requires ClockOk(host) && Fits(g, s) && Good(g, s)
    ensures Inv(g, ApplyAll(host, g, s, ops))
  {
    hide Evolves, Inv;
    ApplyAllEffect(host, g, s, ops);
  }

  lemma OneMoreOp(host: Host, g: Graph, s: State, ops: seq<Op>, k: nat)
    requires Fits(g, s) && k < |ops|
    ensures ApplyAll(host, g, s, ops[..k + 1]) == Apply(host, g, ApplyAll(host, g, s, ops[..k]), ops[k])
  {
    hide Apply;
    assert ops[..k + 1][..k] == ops[..k];
  }

  lemma {:induction false} SparedCovers(host: Host, g: Graph, s: State, ops: seq<Op>, k: nat)
    requires ClockOk(host) && Fits(g, s) && Good(g, s) && Covered(s.l) && Spared(host, g, s, ops) && k <= |ops|
    ensures Covered(ApplyAll(host, g, s, ops[..k]).l)
  {
    hide Good, Inv, Covered, Spares, Apply;
    if k > 0 {
      SparedCovers(host, g, s, ops, k - 1);
      InvThroughout(host, g, s, ops[..k - 1]);
      ApplyCoveredIff(host, g, ApplyAll(host, g, s, ops[..k - 1]), ops[k - 1]);
      OneMoreOp(host, g, s, ops, k - 1);
    } else {
      assert ops[..0] == [];
    }
  }

  /** Over any operations, every blocked task is covered throughout if and only if every override spares the others. */
  lemma CoveredIffSpared(host: Host, g: Graph, s: State, ops: seq<Op>)
    requires ClockOk(host) && Fits(g, s) && Good(g, s) && Covered(s.l)
    ensures AlwaysCovered(host, g, s, ops) <==> Spared(host, g, s, ops)
  {
    hide Good, Inv, Covered, Spares, Apply;
    if Spared(host, g, s, ops) {
      forall k | 0 <= k <= |ops| ensures Covered(ApplyAll(host, g, s, ops[..k]).l) {
        SparedCovers(host, g, s, ops, k);
      }
    }
    if AlwaysCovered(host, g, s, ops) {
      forall k | 0 <= k < |ops| ensures Spares(ApplyAll(host, g, s, ops[..k]).l, ops[k]) {
        InvThroughout(host, g, s, ops[..k]);
        ApplyCoveredIff(host, g, ApplyAll(host, g, s, ops[..k]), ops[k]);
        OneMoreOp(host, g, s, ops, k);
      }
    }
  }

  lemma RunIsCovered(host: Host, m: Manifest, w: World, cfg: Config)
    requires ClockOk(host)
    ensures Covered(Run(host, m, w, cfg).l)
  {
    hide Inv, Drive;
    FreshInv(m, w);
    DriveIsExact(host, GraphOf(m.tasks), Fresh(m, w), cfg);
  }

  /** The guard over a history: a fresh run, then operations whose overrides all spare the others. */
  ghost predicate SparedHistory(host: Host, m: Manifest, w: World, cfg: Config, ops: seq<Op>) {
    Spared(host, GraphOf(m.tasks), Run(host, m, w, cfg), ops)
  }

  /** Every ledger of a history is covered if and only if its overrides all spare the others. */
  lemma HistoryCoveredIff(host: Host, m: Manifest, w: World, cfg: Config, ops: seq<Op>)
    requires ClockOk(host)
    ensures SparedHistory(host, m, w, cfg, ops) <==>
              forall k :: 0 <= k <= |ops| ==> Covered(History(host, m, w, cfg, ops[..k]).l)
  {
    hide Run, Good, Covered, Spared;
    RunIsGood(host, m, w, cfg);
    RunIsCovered(host, m, w, cfg);
    CoveredIffSpared(host, GraphOf(m.tasks), Run(host, m, w, cfg), ops);
  }
}
